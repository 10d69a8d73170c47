# Voxa pipeline core in Dafny

Voxa captures system audio playing through a virtual cable device and transcribes it with a local
speech model. It can translate the transcript and keeps a daily conversation history. This project
models the sequential core of four services and proves properties of them:

- **Transcription service** (`transcription.dfy`). The processing loop appends each dequeued
  chunk to a buffer. Once the buffer holds at least 32000 samples, the whole buffer goes to the
  speech engine as one window. The segment texts are joined with single spaces, and the result is
  put on the text queue unless it is blank. The buffer then keeps only the window's last 4000
  samples. `Run` is the reference the loop is proved against. The lemmas about `Run` show that
  windows overlap by 4000 samples, that the buffer stays below the threshold, that no sample is
  lost or reordered, and that each window puts at most one text. The `running` flag and the worker
  slot are managed by `Start` and `Stop`.
- **Translation service** (`translation.dfy`). It holds a language pair from a fixed three-entry
  table and a single-slot cache. Blank input returns `""`. A repeat of the cached text is served
  from the cache. Otherwise the backend is called: success fills the cache, and failure returns
  `[Translation Error: <cause>]` and leaves the cache alone.
- **Audio service** (`audio.dfy`). It picks the first device whose name contains `CABLE Output`.
  It has a `recording` flag and an optional stream handle. `StartRecording` refuses to start
  without a device. `StopRecording` is idempotent and releases the stream. The callback enqueues
  one mono frame only while recording. There is also a status text and application selection.
- **Conversation manager** (`conversation.dfy`). It keeps an in-memory entry list with append,
  clear and get. Every change is auto-saved as a list of records with `timestamp`,
  `original_text` and `translated_text`. A load rebuilds the entries from such a list, and
  `LoadAfterSave` proves that a save followed by a load gives back the same entries.

`text.dfy` models the Python string operations used by the services: `str.isspace`, `strip`,
`join` and substring search. `wrappers.dfy` holds `Option` and `Result`.

Opaque collaborators are passed in as parameters:

- the speech engine `transcribe: seq<S> -> seq<string>`;
- the translation backend `(Translator, string) -> Result<string, string>`, given separately at
  each call, so one call may fail and the next succeed;
- the channel averaging `mean` used to turn a block into a mono frame;
- the ISO formatting `iso` and its parser `parse`;
- the clock (`now`), the result of the device query, and the result of the application listing,
  all taken as inputs.

The shared queues are sequences. The transcription loop runs over the sequence of its queue
polls: each poll is either a chunk or a timeout.

The code departs from the system's documented design in four places. The model follows the code:

- The joined text is put on the queue untrimmed. Only the blank test uses `strip()`.
- `set_languages` does not clear the translation cache. `RepeatIsServedFromCache` shows that a
  repeat of the last text after a language change is still answered from the cache, in the old
  target language.
- An exception raised by the speech engine is not caught by the loop (only the queue timeout is).
  The engine is therefore modelled as a total function.
- There is no Idle/Starting/Running/Stopping/Failed state machine. There are only the booleans
  `running` and `recording` and the handle slots, and `start`/`start_recording` do not guard
  against being called twice.

## Model

| member | source | states |
|---|---|---|
| Text.StripEmptyIffBlank | src/services/transcription_service.py:44 | `strip()` gives `""` exactly when the text is empty or all whitespace in Python's sense |
| Text.JoinBlankIff | src/services/transcription_service.py:43-45 | the space-joined segment texts are blank exactly when every segment text is blank, so zero segments or all-blank segments enqueue nothing |
| Transcription.Utterance | src/services/transcription_service.py:43-45 | an engine result yields a text to put exactly when its space-joined segment texts are not blank, and that text is the untrimmed join |
| Transcription.Step | src/services/transcription_service.py:29-51 | one poll: a timeout changes nothing; a window is produced only when buffer plus chunk reaches 32000, and it is that whole buffer; the buffer then holds exactly the window's last 4000 samples; otherwise the chunk is appended; at most one put per window, equal to the joined text |
| Transcription.RunConsistent | src/services/transcription_service.py:27-48 | between iterations the buffer has fewer than 32000 samples, every window has at least 32000, each window after the first begins with the previous window's last 4000 samples, the buffer begins with the last window's last 4000, and the puts are the non-blank joins of the windows in window order |
| Transcription.RunPreservesSamples | src/services/transcription_service.py:31-48 | the samples the windows brought in for the first time, followed by the buffer beyond its overlap, equal all dequeued samples in dequeue order: nothing lost, duplicated or reordered |
| Transcription.WindowsOverlap | src/services/transcription_service.py:48 | window k > 0 begins with the final 4000 samples of window k-1 |
| Transcription.TranscriptionService.constructor | src/services/transcription_service.py:9-13 | not running, no worker thread |
| Transcription.TranscriptionService.ProcessAudio | src/services/transcription_service.py:25-51 | the windows handed to the engine and the texts appended to the text queue are those of `Run`; every window has at least 32000 samples and consecutive windows overlap |
| Transcription.TranscriptionService.Start | src/services/transcription_service.py:53-57 | running, with a new worker in the slot |
| Transcription.TranscriptionService.Stop | src/services/transcription_service.py:59-64 | not running and the slot empty; with no worker started it changes nothing |
| Translation.ErrorText | src/services/translation_service.py:54-56 | the failure sentinel is `[Translation Error: ` then the cause then `]` |
| Translation.TranslateStep | src/services/translation_service.py:32-56 | the backend is called exactly when the text is not blank and not the cached text; blank gives `""`; a cache hit gives the cached translation or `""`; success returns the translation and caches the pair; failure returns the sentinel and keeps the cache |
| Translation.RepeatIsServedFromCache | src/services/translation_service.py:46-53 | after a call that did not fail, the same text again returns the same string with no backend call, under any translator, so also after `set_languages` |
| Translation.FailureIsRetried | src/services/translation_service.py:49-56 | after a failure the cache is unchanged, so a retry of the same text calls the backend again and returns a healthy backend's translation |
| Translation.TranslationService.constructor | src/services/translation_service.py:11-16 | source `en`, target `pt`, empty cache |
| Translation.TranslationService.SetLanguages | src/services/translation_service.py:18-23 | both codes change (and the translator is rebuilt) only when both names are in the table, otherwise neither does; the cache is not touched |
| Translation.TranslationService.Translate | src/services/translation_service.py:32-56 | returns and leaves the cache as `TranslateStep`, logs a backend call exactly when `TranslateStep` calls it, and keeps the language pair |
| Audio.FirstMatch | src/services/audio_service.py:20-23 | the index of the first element satisfying the test, or none when no element does |
| Audio.ToMono | src/services/audio_service.py:64-68 | the enqueued frame has one sample per frame of the block: the block itself when one-dimensional, else the mean of each row |
| Audio.Status | src/services/audio_service.py:96-100 | the not-found message exactly when there is no device, `Ready to record` exactly when there is one |
| Audio.AudioService.constructor | src/services/audio_service.py:11-23 | the device is the first device whose name contains `CABLE Output`, or none; not recording, no stream, no application |
| Audio.AudioService.GetStatus | src/services/audio_service.py:96-100 | the status text depends only on the device and is the not-found message exactly when there is none |
| Audio.AudioService.SelectApplication | src/services/audio_service.py:51-57 | the first application with the id is selected; without one the selection is unchanged |
| Audio.AudioService.AudioCallback | src/services/audio_service.py:59-70 | exactly one mono frame is enqueued while recording, nothing otherwise |
| Audio.AudioService.StartRecording | src/services/audio_service.py:72-86 | without a device it returns the ValueError message and changes nothing; otherwise recording is on and a fresh started stream on the device is held |
| Audio.AudioService.StopRecording | src/services/audio_service.py:88-94 | recording is off and no stream is held; a held stream is stopped and closed; repeating the call changes nothing |
| Audio.Stream.constructor | src/services/audio_service.py:78-85 | the stream is bound to the device and rate, mono, 4096 frames per block |
| Conversation.Serialize | src/core/conversation_manager.py:43-50 | one record per entry in entry order, with the ISO timestamp and both texts |
| Conversation.Deserialize | src/core/conversation_manager.py:69-76 | fails exactly when some timestamp does not parse; otherwise one entry per record in file order, with the parsed timestamp and both texts |
| Conversation.LoadAfterSave | src/core/conversation_manager.py:43-76 | when parsing inverts ISO formatting, loading the saved records gives back exactly the entries |
| Conversation.ConversationManager.constructor | src/core/conversation_manager.py:14-15 | no entries |
| Conversation.ConversationManager.AddEntry | src/core/conversation_manager.py:19-27 | exactly one entry with the given texts and time is appended, earlier ones unchanged, and the file is rewritten with all entries |
| Conversation.ConversationManager.GetHistory | src/core/conversation_manager.py:29-31 | the entries, in insertion order |
| Conversation.ConversationManager.ClearHistory | src/core/conversation_manager.py:33-36 | no entries remain and the file is rewritten empty |
| Conversation.ConversationManager.AutoSave | src/core/conversation_manager.py:38-53 | the file holds the serialised entries |
| Conversation.ConversationManager.LoadHistory | src/core/conversation_manager.py:55-76 | an absent file changes nothing; an unparsable timestamp fails and changes nothing; otherwise the entries become those of the file in file order |

## Left out

- The speech model: loading the Whisper model, the CUDA or CPU choice and compute type, and the `language="en"` and `vad_filter=True` arguments. These are foreign calls, so the engine is the parameter `transcribe`.
- An exception raised by the speech engine. The source does not catch it, and it would end the worker thread. The model treats `transcribe` as total, so that path is not captured.
- Threads, `join`, the blocking `get(timeout=0.1)`, and the `running` flag being cleared by another thread. This is concurrency. `ProcessAudio` takes the polls made while `running` held, and a timeout is the `Timeout` poll.
- The translation backend and the construction of the `GoogleTranslator` client. These are a foreign call and network I/O. The model passes the backend's answer as a `Result` and the client as a value holding the language pair. The `print` of the error is also left out.
- The sounddevice calls `query_devices`, `InputStream`, `start`, `stop` and `close`, and any error they raise. The device names are an input. The stream is a `Stream` object with `active` and `closed` flags.
- `list_applications`, which uses pycaw, psutil and win32 (OS I/O). Its result is the input `apps`, without the COM `session` object.
- The averaging of channels, which is floating-point arithmetic. It is the parameter `mean`. The `print` of the callback status is also left out.
- File writes and reads, `os.makedirs`, the JSON byte format, `datetime.now()` and the date-based file name. These are I/O and clocks. The day's file is the field `saved` for writing and the input `file` for reading. Records always have their three fields, so a `KeyError` on a malformed file is not modelled.
- Conversation.ConversationManager.GetHistory: returns the entry sequence as a value. The source returns the list object itself, so a caller's changes to it would alias the manager's entries.
- The whole graphical shell in `src/ui/app.py`: widgets, layout, and the thread start/join glue around the services. `src/ui/app.py` is not part of this model.
