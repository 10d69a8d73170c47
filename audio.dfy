/** The audio service without the operating-system calls: choosing the virtual-cable device,
    the recording flag and the stream handle, the capture callback that feeds the audio queue,
    the status text, and choosing an application. Device names and the application list are
    inputs; samples are of an abstract type `S`. */
module Audio {
  import opened Wrappers
  import Text

  /** The piece of a device name that marks the virtual-cable input. */
  const CableName := "CABLE Output"
  /** The message of the ValueError of `start_recording`, and the status text without a device. */
  const CableNotFound := "VB-Cable not found. Please install VB-Cable from https://vb-audio.com/Cable/"
  const ReadyToRecord := "Ready to record"
  /** Frames per callback requested for the stream. */
  const BlockSize: nat := 4096

  /** The index of the first element of `xs` that satisfies `p`, if there is one. */
  function FirstMatch<T>(xs: seq<T>, p: T -> bool): (r: Option<nat>)
    ensures r.Some? ==> r.value < |xs| && p(xs[r.value]) && forall j | 0 <= j < r.value :: !p(xs[j])
    ensures r.None? ==> forall j | 0 <= j < |xs| :: !p(xs[j])
    decreases |xs|
  {
    if xs == [] then None
    else if p(xs[0]) then Some(0)
    else
      match FirstMatch(xs[1..], p)
      case None => None
      case Some(k) => Some(k + 1)
  }

  predicate IsCable(name: string) {
    Text.Contains(name, CableName)
  }

  /** An application with an audio session, as `list_applications` reports it. */
  datatype App = App(id: int, name: string)

  function HasId(appId: int): App -> bool {
    (app: App) => app.id == appId
  }

  /** The `indata` block of one callback: one sample per frame, or one row of channel samples per frame. */
  datatype Block<S> = Mono(samples: seq<S>) | Channels(frames: seq<seq<S>>)

  function FrameCount<S>(block: Block<S>): nat {
    match block
    case Mono(samples) => |samples|
    case Channels(frames) => |frames|
  }

  /** The frame the callback enqueues: a copy of a one-dimensional block, else the mean of each
      row (`indata.mean(axis=1)`, with the averaging left to `mean`). */
  function ToMono<S>(block: Block<S>, mean: seq<S> -> S): (r: seq<S>)
    ensures |r| == FrameCount(block)
    ensures block.Mono? ==> r == block.samples
    ensures block.Channels? ==> forall i | 0 <= i < |r| :: r[i] == mean(block.frames[i])
  {
    match block
    case Mono(samples) => samples
    case Channels(frames) => seq(|frames|, i requires 0 <= i < |frames| => mean(frames[i]))
  }

  /** The status text: the not-found message exactly when no device was found. */
  function Status(cableDevice: Option<nat>): (s: string)
    ensures s == CableNotFound <==> cableDevice.None?
    ensures s == ReadyToRecord <==> cableDevice.Some?
  {
    if cableDevice.None? then CableNotFound else ReadyToRecord
  }

  /** An open input stream (`sd.InputStream`): bound to a device, started, stopped and closed. */
  class Stream {
    const device: nat
    const sampleRate: int
    const channels: nat
    const blockSize: nat
    var active: bool
    var closed: bool

    constructor (device: nat, sampleRate: int)
      ensures this.device == device && this.sampleRate == sampleRate
      ensures channels == 1 && blockSize == BlockSize
      ensures !active && !closed
    {
      this.device := device;
      this.sampleRate := sampleRate;
      channels := 1;
      blockSize := BlockSize;
      active := false;
      closed := false;
    }

    method Start()
      modifies this
      ensures active && closed == old(closed)
    {
      active := true;
    }

    method Stop()
      modifies this
      ensures !active && closed == old(closed)
    {
      active := false;
    }

    method Close()
      modifies this
      ensures closed && active == old(active)
    {
      closed := true;
    }
  }

  /** `AudioService`. `audioQueue` holds the frames the callback has put on the shared audio queue. */
  class AudioService<S> {
    const sampleRate: int
    var recording: bool
    var stream: Option<Stream>
    var selectedApp: Option<App>
    var cableDevice: Option<nat>
    var audioQueue: seq<seq<S>>

    /** The objects a stop may change: this service and the stream it holds. */
    ghost function Footprint(): set<object>
      reads this
    {
      {this} + (if stream.Some? then {stream.value} else {})
    }

    /** `__init__`, with `deviceNames` the names `sd.query_devices()` lists, in its order:
        the device is the first whose name contains "CABLE Output". */
    constructor (audioQueue: seq<seq<S>>, deviceNames: seq<string>, sampleRate: int)
      ensures cableDevice == FirstMatch(deviceNames, IsCable)
      ensures cableDevice.Some? ==> IsCable(deviceNames[cableDevice.value])
      ensures !recording && stream == None && selectedApp == None
      ensures this.audioQueue == audioQueue && this.sampleRate == sampleRate
    {
      var found: Option<nat> := None;
      var idx := 0;
      while idx < |deviceNames|
        invariant 0 <= idx <= |deviceNames|
        invariant found.None? ==> forall j | 0 <= j < idx :: !IsCable(deviceNames[j])
        invariant found.Some? ==> found == FirstMatch(deviceNames, IsCable)
      {
        if IsCable(deviceNames[idx]) {
          found := Some(idx);
          break;
        }
        idx := idx + 1;
      }
      this.audioQueue := audioQueue;
      this.sampleRate := sampleRate;
      recording := false;
      stream := None;
      selectedApp := None;
      cableDevice := found;
    }

    /** `get_status`. */
    function GetStatus(): (s: string)
      reads this
      ensures s == CableNotFound <==> cableDevice.None?
      ensures s == ReadyToRecord <==> cableDevice.Some?
    {
      Status(cableDevice)
    }

    /** `select_application(app_id)`, with `apps` what `list_applications()` returns: the first
        application with that id is selected; without one the selection stays as it was. */
    method SelectApplication(appId: int, apps: seq<App>)
      modifies this`selectedApp
      ensures match FirstMatch(apps, HasId(appId))
        case Some(k) => selectedApp == Some(apps[k])
        case None => selectedApp == old(selectedApp)
      ensures selectedApp.Some? && selectedApp != old(selectedApp) ==> selectedApp.value.id == appId
    {
      var i := 0;
      while i < |apps|
        invariant 0 <= i <= |apps|
        invariant forall j | 0 <= j < i :: apps[j].id != appId
        invariant selectedApp == old(selectedApp)
      {
        if apps[i].id == appId {
          selectedApp := Some(apps[i]);
          assert HasId(appId)(apps[i]);
          break;
        }
        i := i + 1;
      }
    }

    /** `audio_callback`: one mono frame is enqueued while recording, nothing otherwise. */
    method AudioCallback(indata: Block<S>, mean: seq<S> -> S)
      modifies this`audioQueue
      ensures audioQueue == if recording then old(audioQueue) + [ToMono(indata, mean)] else old(audioQueue)
    {
      if recording {
        var audioData := ToMono(indata, mean);
        audioQueue := audioQueue + [audioData];
      }
    }

    /** `start_recording`: without a device it fails with the ValueError message and changes
        nothing; otherwise recording is on and a new started stream on the device is held. */
    method StartRecording() returns (error: Option<string>)
      modifies this
      ensures old(cableDevice).None? ==> error == Some(CableNotFound) && unchanged(this)
      ensures old(cableDevice).Some? ==>
        && error == None
        && recording
        && stream.Some? && fresh(stream.value)
        && stream.value.device == old(cableDevice).value && stream.value.sampleRate == sampleRate
        && stream.value.active && !stream.value.closed
      ensures cableDevice == old(cableDevice) && selectedApp == old(selectedApp)
      ensures audioQueue == old(audioQueue)
    {
      if cableDevice.None? {
        return Some(CableNotFound);
      }
      recording := true;
      var s := new Stream(cableDevice.value, sampleRate);
      stream := Some(s);
      s.Start();
      error := None;
    }

    /** `stop_recording`: recording is off and no stream is held; a held stream is stopped and
        closed first. Without a stream it only clears the flag, so a second call changes nothing. */
    method StopRecording()
      modifies Footprint()
      ensures !recording && stream == None
      ensures old(stream).Some? ==> !old(stream).value.active && old(stream).value.closed
      ensures cableDevice == old(cableDevice) && selectedApp == old(selectedApp)
      ensures audioQueue == old(audioQueue)
      ensures !old(recording) && old(stream).None? ==> unchanged(this)
    {
      recording := false;
      if stream.Some? {
        stream.value.Stop();
        stream.value.Close();
        stream := None;
      }
    }
  }
}
