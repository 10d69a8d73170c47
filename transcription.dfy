/** The transcription service: the segmentation buffer that turns dequeued audio chunks into
    overlapping windows for the speech engine, and the running flag / worker slot that start and
    stop manage. Samples are of an abstract type `S`; the speech engine is the function
    `transcribe`, which maps one window to the texts of the segments it recognised. */
module Transcription {
  import opened Wrappers
  import Text

  /** A window is handed to the engine once the buffer holds this many samples (2 s at 16 kHz). */
  const Threshold: nat := 32000
  /** Samples kept from each window to seed the next one (0.25 s at 16 kHz). */
  const Overlap: nat := 4000

  /** The outcome of one `audio_queue.get(timeout=0.1)`: a chunk of samples, or the timeout. */
  datatype Poll<S> = Chunk(samples: seq<S>) | Timeout

  /** What the processing loop has done so far: the local buffer, every window given to the
      engine (in order), and every text put on the text queue (in order). */
  datatype Segmenter<S> = Segmenter(buffer: seq<S>, windows: seq<seq<S>>, puts: seq<string>)

  /** Python's `s[-n:]` for a positive `n`. */
  function LastN<S>(s: seq<S>, n: nat): seq<S> {
    if |s| <= n then s else s[|s| - n..]
  }

  /** The text the loop puts on the text queue for one engine result, if any: the segment
      texts joined with single spaces, untrimmed, unless that is empty or whitespace only. */
  function Utterance(segments: seq<string>): (u: Option<string>)
    ensures u.Some? <==> !Text.IsBlank(Text.Join(" ", segments))
    ensures u.Some? ==> u.value == Text.Join(" ", segments)
  {
    var text := Text.Join(" ", segments);
    Text.StripEmptyIffBlank(text);
    if Text.Strip(text) != "" then Some(text) else None
  }

  function OptionToSeq<T>(o: Option<T>): seq<T> {
    match o
    case Some(v) => [v]
    case None => []
  }

  /** One iteration of the processing loop. */
  function Step<S>(st: Segmenter<S>, poll: Poll<S>, transcribe: seq<S> -> seq<string>): (r: Segmenter<S>)
    // a timeout changes nothing
    ensures poll.Timeout? ==> r == st
    // at most one new window, and only when the extended buffer reaches the threshold
    ensures |st.windows| <= |r.windows| <= |st.windows| + 1
    ensures r.windows[..|st.windows|] == st.windows
    ensures |r.windows| == |st.windows| + 1 <==> poll.Chunk? && |st.buffer + poll.samples| >= Threshold
    // the window is the whole buffer, and only its last Overlap samples stay
    ensures |r.windows| == |st.windows| + 1 ==>
      && r.windows[|st.windows|] == st.buffer + poll.samples
      && |r.buffer| == Overlap
      && r.buffer == r.windows[|st.windows|][|r.windows[|st.windows|]| - Overlap..]
    // without a window the chunk is appended and nothing is put
    ensures |r.windows| == |st.windows| ==>
      r.puts == st.puts && r.buffer == st.buffer + (if poll.Chunk? then poll.samples else [])
    // each window puts at most one text: the joined segment texts, when not blank
    ensures |r.windows| == |st.windows| + 1 ==>
      r.puts == st.puts + OptionToSeq(Utterance(transcribe(r.windows[|st.windows|])))
  {
    match poll
    case Timeout => st
    case Chunk(samples) =>
      var buffer := st.buffer + samples;
      if |buffer| >= Threshold then
        Segmenter(LastN(buffer, Overlap), st.windows + [buffer],
                  st.puts + OptionToSeq(Utterance(transcribe(buffer))))
      else
        st.(buffer := buffer)
  }

  /** The state of the processing loop after the polls `polls`, the reference the loop is proved against. */
  function Run<S>(polls: seq<Poll<S>>, transcribe: seq<S> -> seq<string>): Segmenter<S>
    decreases |polls|
  {
    if polls == [] then Segmenter([], [], [])
    else Step(Run(polls[..|polls| - 1], transcribe), polls[|polls| - 1], transcribe)
  }

  /** All samples dequeued by `polls`, in dequeue order. */
  function Samples<S>(polls: seq<Poll<S>>): seq<S>
    decreases |polls|
  {
    if polls == [] then []
    else
      var last := polls[|polls| - 1];
      Samples(polls[..|polls| - 1]) + (if last.Chunk? then last.samples else [])
  }

  /** The texts the windows put on the text queue, in window order. */
  function Utterances<S>(windows: seq<seq<S>>, transcribe: seq<S> -> seq<string>): seq<string>
    decreases |windows|
  {
    if windows == [] then []
    else
      Utterances(windows[..|windows| - 1], transcribe)
        + OptionToSeq(Utterance(transcribe(windows[|windows| - 1])))
  }

  /** The samples the windows brought in for the first time: the first window whole, and each
      later window without the overlap it repeats. */
  function Emitted<S>(windows: seq<seq<S>>): seq<S>
    decreases |windows|
  {
    if windows == [] then []
    else if |windows| == 1 then windows[0]
    else
      var w := windows[|windows| - 1];
      Emitted(windows[..|windows| - 1]) + (if |w| >= Overlap then w[Overlap..] else [])
  }

  /** The samples of the buffer that no window has carried yet. */
  function Pending<S>(st: Segmenter<S>): seq<S> {
    if st.windows == [] then st.buffer
    else if |st.buffer| >= Overlap then st.buffer[Overlap..]
    else []
  }

  /** `next` begins with the last Overlap samples of `prev`. */
  ghost predicate Continues<S>(prev: seq<S>, next: seq<S>) {
    |prev| >= Overlap && |next| >= Overlap && next[..Overlap] == prev[|prev| - Overlap..]
  }

  /** The invariant the processing loop keeps between iterations. */
  ghost predicate Consistent<S>(st: Segmenter<S>, transcribe: seq<S> -> seq<string>) {
    && |st.buffer| < Threshold
    && (forall i | 0 <= i < |st.windows| :: |st.windows[i]| >= Threshold)
    && (forall i, j | 0 <= i && j == i + 1 && j < |st.windows| :: Continues(st.windows[i], st.windows[j]))
    && (st.windows != [] ==> Continues(st.windows[|st.windows| - 1], st.buffer))
    && st.puts == Utterances(st.windows, transcribe)
  }

  lemma StepConsistent<S>(st: Segmenter<S>, poll: Poll<S>, transcribe: seq<S> -> seq<string>)
    requires Consistent(st, transcribe)
    ensures Consistent(Step(st, poll, transcribe), transcribe)
  {
    var r := Step(st, poll, transcribe);
    if poll.Chunk? {
      var window := st.buffer + poll.samples;
      if st.windows != [] {
        assert window[..Overlap] == st.buffer[..Overlap];
      }
      if |window| >= Threshold {
        var ws := r.windows;
        assert ws == st.windows + [window];
        assert ws[..|ws| - 1] == st.windows;
        forall i, j | 0 <= i && j == i + 1 && j < |ws| ensures Continues(ws[i], ws[j]) {
          if j < |st.windows| {
            assert ws[i] == st.windows[i] && ws[j] == st.windows[j];
          } else {
            assert ws[i] == st.windows[|st.windows| - 1] && ws[j] == window;
          }
        }
      }
    }
  }

  /** Between iterations: the buffer is below the threshold, every window reached it, each
      window after the first begins with the previous window's last Overlap samples, the buffer
      begins with the last window's last Overlap samples, and the texts put are exactly the
      non-blank joined results of the windows, one at most per window, in window order. */
  lemma {:induction false} RunConsistent<S>(polls: seq<Poll<S>>, transcribe: seq<S> -> seq<string>)
    ensures Consistent(Run(polls, transcribe), transcribe)
    decreases |polls|
  {
    if polls != [] {
      RunConsistent(polls[..|polls| - 1], transcribe);
      StepConsistent(Run(polls[..|polls| - 1], transcribe), polls[|polls| - 1], transcribe);
    }
  }

  /** The samples one poll dequeues. */
  function Dequeued<S>(poll: Poll<S>): seq<S> {
    if poll.Chunk? then poll.samples else []
  }

  /** One poll adds its samples, and only those, to what the windows and the buffer carry. */
  lemma StepPreservesSamples<S>(st: Segmenter<S>, poll: Poll<S>, transcribe: seq<S> -> seq<string>)
    requires st.windows != [] ==> |st.buffer| >= Overlap
    ensures var r := Step(st, poll, transcribe);
      Emitted(r.windows) + Pending(r) == Emitted(st.windows) + Pending(st) + Dequeued(poll)
  {
    var r := Step(st, poll, transcribe);
    if poll.Chunk? {
      var window := st.buffer + poll.samples;
      if st.windows != [] {
        assert window[Overlap..] == st.buffer[Overlap..] + poll.samples;
      }
      if |window| >= Threshold {
        assert r.windows == st.windows + [window];
        assert r.windows[..|r.windows| - 1] == st.windows;
        assert |r.buffer| == Overlap;
        assert Pending(r) == [];
        if st.windows == [] {
          assert Emitted(r.windows) == window;
        } else {
          assert Emitted(r.windows) == Emitted(st.windows) + window[Overlap..];
        }
      } else {
        assert r.windows == st.windows && r.buffer == window;
      }
    } else {
      assert r == st;
    }
  }

  /** No sample is lost, duplicated or reordered: what the windows brought in for the first
      time, followed by what the buffer holds beyond the overlap, is exactly the dequeued
      samples in dequeue order. */
  lemma {:induction false} RunPreservesSamples<S>(polls: seq<Poll<S>>, transcribe: seq<S> -> seq<string>)
    ensures Emitted(Run(polls, transcribe).windows) + Pending(Run(polls, transcribe)) == Samples(polls)
    decreases |polls|
  {
    if polls != [] {
      var prefix := polls[..|polls| - 1];
      var poll := polls[|polls| - 1];
      var st := Run(prefix, transcribe);
      RunPreservesSamples(prefix, transcribe);
      RunConsistent(prefix, transcribe);
      StepPreservesSamples(st, poll, transcribe);
      assert Samples(polls) == Samples(prefix) + Dequeued(poll);
    }
  }

  /** Every window after the first begins with the final Overlap samples of the one before. */
  lemma WindowsOverlap<S>(polls: seq<Poll<S>>, transcribe: seq<S> -> seq<string>, k: nat)
    requires 0 < k < |Run(polls, transcribe).windows|
    ensures
      var ws := Run(polls, transcribe).windows;
      && |ws[k - 1]| >= Threshold && |ws[k]| >= Threshold
      && ws[k][..Overlap] == ws[k - 1][|ws[k - 1]| - Overlap..]
  {
    RunConsistent(polls, transcribe);
    var ws := Run(polls, transcribe).windows;
    assert Continues(ws[k - 1], ws[k]);
  }

  /** The consumer side of the text queue is not part of this model; the worker thread is only
      identified. */
  class Worker {
    constructor () { }
  }

  /** `TranscriptionService` without the speech model it loads. `textQueue` holds what the
      service has put on the shared text queue. */
  class TranscriptionService {
    var running: bool
    var processingThread: Option<Worker>
    var textQueue: seq<string>

    constructor (textQueue: seq<string>)
      ensures !running && processingThread == None && this.textQueue == textQueue
    {
      running := false;
      processingThread := None;
      this.textQueue := textQueue;
    }

    /** `process_audio`, for the polls `polls` made while `running` held. It returns the
        windows given to the engine, in order. */
    method ProcessAudio<S>(polls: seq<Poll<S>>, transcribe: seq<S> -> seq<string>) returns (windows: seq<seq<S>>)
      modifies this`textQueue
      ensures windows == Run(polls, transcribe).windows
      ensures textQueue == old(textQueue) + Run(polls, transcribe).puts
      ensures forall i | 0 <= i < |windows| :: |windows[i]| >= Threshold
      ensures forall i, j | 0 <= i && j == i + 1 && j < |windows| :: Continues(windows[i], windows[j])
      ensures textQueue == old(textQueue) + Utterances(windows, transcribe)
    {
      var buffer: seq<S> := [];
      windows := [];
      var i := 0;
      while i < |polls|
        invariant 0 <= i <= |polls|
        invariant buffer == Run(polls[..i], transcribe).buffer
        invariant windows == Run(polls[..i], transcribe).windows
        invariant textQueue == old(textQueue) + Run(polls[..i], transcribe).puts
      {
        assert polls[..i + 1][..i] == polls[..i];
        ghost var next := Step(Run(polls[..i], transcribe), polls[i], transcribe);
        assert Run(polls[..i + 1], transcribe) == next;
        match polls[i] {
          case Timeout =>
            // `except Empty: continue`
          case Chunk(chunk) =>
            buffer := buffer + chunk;
            if |buffer| >= Threshold {
              windows := windows + [buffer];
              var text := Text.Join(" ", transcribe(buffer));
              Text.StripEmptyIffBlank(text);
              if Text.Strip(text) != "" {
                textQueue := textQueue + [text];
              }
              buffer := LastN(buffer, Overlap);
            }
        }
        assert buffer == next.buffer && windows == next.windows;
        assert textQueue == old(textQueue) + next.puts;
        i := i + 1;
      }
      assert polls[..i] == polls;
      RunConsistent(polls, transcribe);
    }

    /** `start`: sets the running flag and fills the worker slot with a new thread. */
    method Start()
      modifies this
      ensures running && processingThread.Some? && fresh(processingThread.value)
      ensures textQueue == old(textQueue)
    {
      running := true;
      var worker := new Worker();
      processingThread := Some(worker);
    }

    /** `stop`: clears the running flag, joins the worker if there is one and empties the slot. */
    method Stop()
      modifies this
      ensures !running && processingThread == None
      ensures textQueue == old(textQueue)
      ensures !old(running) && old(processingThread) == None ==> unchanged(this)
    {
      running := false;
      if processingThread.Some? {
        processingThread := None;
      }
    }
  }
}
