# A model of the StereoKit GStreamer demo

This project models, in Dafny, the logic of a StereoKit demo application that
plays video with GStreamer. It covers three parts.

- **The log capture** (`LogCapture`, over `Utf8`). The application subscribes
  a closure to the runtime's log, and the closure copies every message into a
  shared list of log items for the log window. Each message is split into
  lines. Each line is cut into 130-byte chunks. Every chunk that is
  well-formed UTF-8 becomes a text, and every chunk after the first gets a
  `‣‣‣‣` prefix. A text equal to the last item's text raises that item's count
  instead of adding a new item. The list is the `items` field of the class
  `LogLog`. `LogLog.OnLog` keeps the two nested loops of the closure and is
  proved equal to the specification function `Capture`. The lemmas state what
  the closure promises:
  - no two adjacent items are equal;
  - items are non-empty well-formed UTF-8 with a count of at least one;
  - the sum of the counts rises by exactly the number of well-formed chunks;
  - older items are never touched;
  - a line whose chunks are all well formed can be rejoined from its texts.
  The model also shows that when any of the 130-byte cuts falls inside a
  character of a well-formed line, the chunks on both sides of that cut fail
  the UTF-8 check and are lost. The source behaves this way as written, and the model keeps
  that behaviour.
- **The video steppers** (`VideoLifecycle`, `Video1`, `Video2`).
  - `VideoLifecycle` holds the lifecycle that both steppers share, as pure
    transitions over the fields `first`, `stream_running`, `pipeline`, `bus`
    and the `set_state` requests made so far. `initialize` stores the built
    pipeline. `step` requests `Playing` once and polls the bus while the
    stream runs. `check_bus` pops at most one EOS, error or state-change
    message and tears the pipeline down only for an EOS or an error that the
    pipeline itself posted. `shutdown` requests `Paused` and, only if that
    succeeded, `Null`, then drops both handles.
  - The classes `Video1` and `Video2` have those fields and methods. Each
    method is proved equal to its transition.
  - `Video1` adds the `VideoType` dispatch, the static element chain of each
    builder and the choice between `uridecodebin(3)` and
    `filesrc`+`decodebin(3)`. It also adds the `pad-added` handler, which
    classifies a pad as audio first, then video, and picks the sink chain.
  - `Video2` adds the `playbin3`/`playbin` choice and the sink bins, where the
    disabled overlay branch means the video sink is always set. The playbin
    configuration is the pure function `InitPlaybin` of the stepper's `uri`
    and `v3_enabled`. The class's `Initialize` takes only whether building
    the playbin succeeded, because the build itself is a GStreamer call.
- **The entry points** (`Launch`, `CommandLine`).
  - `Launch` models the bookkeeping of `launch`:
    - the log window and fly-over steppers pushed at start;
    - the `Show Log` toggle and the copy of `show_log` captured by the
      event-sending closure;
    - the `Decodebin3` toggle;
    - seven video switches. Each pushes an add action under a fixed name when
      switched on and a remove action under the same name when switched off.
      The URIs they form depend on the external directory and the files
      present.
  - `CommandLine` models the argument loop of `main`, the messages it prints
    and the settings chosen from `--test` and `--headless`.

Media-framework objects are opaque references. A pipeline build's success or
failure, the external directory and the file system are inputs. A `set_state`
call is recorded as a request. The bus is the queue of messages pending on it.

## Model

| member | source | states |
|---|---|---|
| Utf8.Valid | src/lib.rs:95 | the bytes `String::from_utf8` accepts: a run of complete well-formed sequences of Unicode Table 3-7 (no overlong forms, no surrogates, nothing above U+10FFFF); what it rejects is stated by the lemmas below |
| Utf8.ValidConcat | src/lib.rs:95 | two well-formed UTF-8 byte strings concatenate to a well-formed one |
| Utf8.AsciiValid | src/lib.rs:95 | bytes below 0x80 are always accepted by the UTF-8 check |
| Utf8.StartsWithContinuationInvalid | src/lib.rs:95 | a chunk that starts with a continuation byte is rejected |
| Utf8.EndsWithLeadInvalid | src/lib.rs:95 | a chunk that ends with a multi-byte lead byte is rejected |
| Utf8.ValidSuffix | src/lib.rs:93-95 | what follows a well-formed prefix of a well-formed string is itself well formed |
| Utf8.InsideCharacterIsCont | src/lib.rs:95 | every byte inside the first character of a string, after its lead byte, is a continuation byte |
| Utf8.ValidFromBoundary | src/lib.rs:93-95 | a well-formed string cut just before any byte that is not a continuation byte leaves a well-formed rest (UTF-8 self-synchronises) |
| Utf8.LeadWidthPrefix | src/lib.rs:95 | the width of a complete first character does not depend on what follows it |
| Utf8.LeadWidth | src/lib.rs:95 | a first character never takes more than four bytes or more than the input has |
| LogCapture.LineEnd | src/lib.rs:92 | the end of the first line is the first line feed, or the end of the text |
| LogCapture.Lines | src/lib.rs:92 | a line never contains a line feed; an empty message has no lines and a non-empty one has at least one; the exact lines are pinned down by `LinesOfTerminated` and `TerminatedLines` |
| LogCapture.LinesOfTerminated | src/lib.rs:92 | lines without line feeds or a final carriage return, each followed by a line feed, split back into exactly those lines |
| LogCapture.TerminatedLines | src/lib.rs:92 | in a message without carriage returns, the lines each followed by a line feed give back the message, plus one line feed when it did not already end with one |
| LogCapture.CarriageReturnDropped | src/lib.rs:92 | a carriage return just before a line feed is removed with it |
| LogCapture.Chunks | src/lib.rs:93 | the line cut into consecutive 130-byte pieces, the last one shorter; its properties are `ChunksSpellLine` |
| LogCapture.ChunksSpellLine | src/lib.rs:93 | the chunks of a line concatenate to the line; each holds 1 to 130 bytes; all but the last hold exactly 130; there are ceil(len/130) of them |
| LogCapture.ChunksSpellLineAscii | src/lib.rs:93-95 | every chunk of an ASCII line passes the UTF-8 check |
| LogCapture.PrefixValid | src/lib.rs:96-98 | the continuation prefix is itself well-formed UTF-8 |
| LogCapture.PieceTextsCount | src/lib.rs:94-95 | a line contributes exactly as many texts as it has well-formed chunks |
| LogCapture.PieceTextsWellFormed | src/lib.rs:95-98 | every text a line contributes is non-empty and well formed, prefix included |
| LogCapture.PieceTextsAllValid | src/lib.rs:94-98 | when all chunks are well formed, text i is chunk i, prefixed exactly when i > 0 |
| LogCapture.LinesTextsFacts | src/lib.rs:92-98 | a message contributes one non-empty well-formed text per well-formed chunk of its lines |
| LogCapture.FlattenSnoc | src/lib.rs:93 | concatenating chunks is compatible with appending one chunk |
| LogCapture.JoinChunkTexts | src/lib.rs:96-98 | removing the prefix of every text after the first and concatenating gives back the chunks' bytes |
| LogCapture.LineRoundTrip | src/lib.rs:93-98 | when no chunk is dropped, the texts of a line rejoin to the line, one text per chunk |
| LogCapture.AsciiLineRoundTrip | src/lib.rs:93-98 | the texts of an ASCII line rejoin to the line |
| LogCapture.ShortLineKeptWhole | src/lib.rs:93-98 | a well-formed line of at most 130 bytes becomes one unprefixed text |
| LogCapture.ChunkAt | src/lib.rs:93 | chunk `i` of a line is exactly its bytes from `130 * i` up to `130 * (i + 1)` or the end of the line |
| LogCapture.CutInsideCharacter | src/lib.rs:93-95 | in a well-formed line whose cut at byte `130 * k` (any `k > 0`) falls inside a character, neither chunk `k - 1` before the cut nor chunk `k` after it passes the UTF-8 check, so both contribute nothing |
| LogCapture.SplitCharacterIsDropped | src/lib.rs:93-95 | for example, a well-formed 131-byte line whose cut splits a two-byte character gives no text at all |
| LogCapture.EmptyLines | src/lib.rs:92 | a message of line feeds only splits into empty lines |
| LogCapture.NoTextsFromEmptyLines | src/lib.rs:93-94 | empty lines have no chunks and contribute nothing |
| LogCapture.OnlyLineFeedsAddNothing | src/lib.rs:92-94 | a message of line feeds only leaves the item list unchanged |
| LogCapture.AddText | src/lib.rs:99-106 | one dedup-or-push step: the last item's count is raised when its text is equal, otherwise a new item with count 1 is pushed; its properties are the `AddText` lemmas below |
| LogCapture.AddTextEffect | src/lib.rs:99-106 | a text equal to the last item's raises that item's count by one and keeps its level and the length; any other text is pushed with the call's level and count 1; earlier items are unchanged |
| LogCapture.AddTextTotalCount | src/lib.rs:99-106 | each text raises the sum of counts by exactly one |
| LogCapture.AddTextNoAdjacentDuplicates | src/lib.rs:99-106 | one text keeps adjacent items distinct |
| LogCapture.AddTextWellFormed | src/lib.rs:95-106 | one well-formed text keeps every item non-empty, well formed and counted at least once |
| LogCapture.AddTextExtends | src/lib.rs:99-106 | one text leaves every item but the last unchanged; the last keeps its text and level; new items carry the call's level |
| LogCapture.ExtendsTransitive | src/lib.rs:99-106 | the "older items untouched" relation composes over several texts |
| LogCapture.AddAll | src/lib.rs:94-107 | the dedup-or-push step applied to each text in order; its properties are the `AddAll` lemmas below |
| LogCapture.AddAllKeepsOlderItems | src/lib.rs:92-108 | a run of texts keeps older items and at most adds one item per text; the last item then holds the last text |
| LogCapture.AddAllNoAdjacentDuplicates | src/lib.rs:92-108 | a run of texts keeps adjacent items distinct |
| LogCapture.AddAllWellFormed | src/lib.rs:92-108 | a run of well-formed texts keeps the items well formed |
| LogCapture.AddAllTotalCount | src/lib.rs:92-108 | a run of texts raises the sum of counts by the number of texts |
| LogCapture.AddAllSnoc | src/lib.rs:99-106 | one more text is one more dedup-or-push step |
| LogCapture.AddAllAppend | src/lib.rs:92-108 | folding two runs of texts is folding one after the other |
| LogCapture.Capture | src/lib.rs:90-110 | the list after one message: every well-formed chunk of every line, prefixed after the first of its line, folded into the list in order |
| LogCapture.CaptureFacts | src/lib.rs:90-110 | one message keeps adjacent items distinct and items well formed, and raises the sum of counts by its number of well-formed chunks |
| LogCapture.LogLog.constructor | src/lib.rs:28 | the shared list starts empty and valid |
| LogCapture.LogLog.OnLog | src/lib.rs:90-110 | the list after the subscriber runs is `Capture` of the old list; validity is kept; the sum of counts rises by the well-formed chunk count |
| LogCapture.LogLog.CaptureLine | src/lib.rs:93-108 | the chunk loop of one line folds that line's texts into the list |
| LogCapture.LogLog.Absorb | src/lib.rs:99-106 | the last item's count is raised or a new item is pushed, as `AddText` says |
| VideoLifecycle.PlayingCountAppend | src/video1.rs:122-127 | requests other than `Playing` leave the number of `Playing` requests unchanged |
| VideoLifecycle.Initialize | src/video1.rs:113-118 | success iff the builder succeeded; on success the stepper holds the pipeline and its bus and the stream runs; on failure nothing changes; the invariant is kept |
| VideoLifecycle.PopFiltered | src/video1.rs:734-737 | at most one message is taken, and it has a wanted type; the messages skipped before it are unwanted and dropped; with no wanted message the queue is emptied |
| VideoLifecycle.Dispatch | src/video1.rs:740-801 | the state changes iff the message is an EOS or error posted by the pipeline; then `Null` is requested, the stream stops and both handles are dropped |
| VideoLifecycle.CheckBus | src/video1.rs:732-804 | with no bus nothing happens; otherwise the first EOS, error or state-change message is popped and the rest of the queue is left, that message is the one dispatched, and only the popped message can change the state, which happens only when it stops the stream; the invariant is kept |
| VideoLifecycle.StartPlayback | src/video1.rs:123-127 | `Playing` is requested only while `first` is set, after which `first` is cleared |
| VideoLifecycle.Poll | src/video1.rs:129-131 | the bus is polled only while the stream runs, and then the first wanted message is popped and the rest of the queue is left; the state changes iff the popped message is an EOS or error of the pipeline, and then only by dropping both handles, stopping the stream and requesting `Null`; polling never requests `Playing` and keeps earlier requests |
| VideoLifecycle.Step | src/video1.rs:121-136 | with no pipeline nothing happens; with one, `first` ends cleared; `Playing` is requested iff `first` was set, as the next request; the bus is touched only while the stream runs; earlier requests are kept |
| VideoLifecycle.StepPollsBus | src/video1.rs:121-136 | while the stream runs with a bus, `step` pops the first wanted message and leaves the rest; if that message is an EOS or error of the pipeline, the pipeline and bus are dropped, the stream is stopped and the last request is `Null`; otherwise the stream is not stopped |
| VideoLifecycle.StepChangesOnlyOnStop | src/video1.rs:121-136 | `step` changes the pipeline, the bus or `stream_running` only when the popped message is an EOS or error of the pipeline, which then drops both handles and stops the stream; the requests added are the optional `Playing` and, exactly then, `Null` |
| VideoLifecycle.Steps | src/video1.rs:121-136 | the runtime calls `step` once per frame, each frame seeing the messages then pending; its properties are the lemmas below |
| VideoLifecycle.Shutdown | src/video1.rs:138-157 | both handles end dropped; `Paused` is requested when there is a pipeline, and `Null` after it only if pausing succeeded |
| VideoLifecycle.StepsValid | src/video1.rs:121-136 | any number of steps keeps the invariant |
| VideoLifecycle.WholeLife | src/video1.rs:94-157 | over initialize, any frames and shutdown, `Playing` is requested at most once and no handle remains |
| VideoLifecycle.StepsWithoutPipeline | src/video1.rs:122 | once the pipeline is gone, steps change nothing |
| VideoLifecycle.FailedBuildRequestsNothing | src/video1.rs:113-122 | a failed build never leads to any `set_state` request |
| Video1.BuilderFor | src/video1.rs:102-111 | every variant except `None` and `VP9File` has a builder, called with the variant's own port or URI |
| Video1.InitializeVideo | src/video1.rs:94-119 | true iff the variant has a builder and it succeeded; `stream_running` is set exactly then; `None` and `VP9File` leave the state unchanged |
| Video1.ChooseDecodeFront | src/video1.rs:270-289 | `file:` and `https://` URIs go to `uridecodebin3`/`uridecodebin` by `v3_enabled`; any other URI goes to `filesrc` as a location, linked to `decodebin3`/`decodebin` |
| Video1.HttpIsReadAsPath | src/video1.rs:270 | an `http://` URI is read by `filesrc` as a path |
| Video1.PadSourceOf | src/video1.rs:296 | only the decodebin, H.264 and VP8 builders handle new pads |
| Video1.StaticChain | src/video1.rs:168-520 | the RTP builders link a complete chain from `udpsrc` to an appsink; the file builders link `filesrc` and then the element whose pads are handled later: `qtdemux` for H.264, `matroskademux` for VP8, `decodebin`/`decodebin3` for a path; a URI goes to `uridecodebin`/`uridecodebin3` alone; the 3 variant exactly when v3 is enabled |
| Video1.MediaType | src/video1.rs:301-306 | no media type without caps or without a first structure; otherwise the audio and video prefix tests on its name, never both true |
| Video1.AudioSinkChain | src/video1.rs:324-344 | an audio pad is linked to a queue, format conversion and resampling, ending in an appsink |
| Video1.VideoSinkChain | src/video1.rs:345-373 | a video pad is linked to a queue, conversion and scaling, ending in an appsink |
| Video1.OnPadAdded | src/video1.rs:296-382 | nothing once the pipeline is gone; a warning without a media type; the audio chain iff the pad is audio; the video chain iff it is video and not audio; otherwise nothing |
| Video1.Video1.constructor | src/video1.rs:162-164 | the given variant with id `Video1` and the initial lifecycle |
| Video1.Video1.Initialize | src/video1.rs:94-119 | the id is recorded and the state and result are those of `InitializeVideo` |
| Video1.Video1.Step | src/video1.rs:121-136 | the new fields and the remaining bus are those of `Step` |
| Video1.Video1.CheckBus | src/video1.rs:732-804 | the new fields and the remaining bus are those of `CheckBus` |
| Video1.Video1.Shutdown | src/video1.rs:138-157 | the new fields are those of `Shutdown` |
| Video2.PlaybinElement | src/video2.rs:153-157 | `playbin3` iff `v3_enabled`, `playbin` otherwise |
| Video2.InitPlaybin | src/video2.rs:151-228 | the playbin gets the URI; the audio bin starts with the equalizer, which gets exactly band1 and band2 set to -24 dB (band0 untouched); the video sink bin is always set and its callback installed; no window handle is passed |
| Video2.Video2.Default | src/video2.rs:60-85 | an empty URI, v3 enabled, id `Video1` and the initial lifecycle |
| Video2.Video2.constructor | src/video2.rs:145-147 | the given URI and v3 choice, other fields as by default |
| Video2.Video2.Initialize | src/video2.rs:87-102 | the id is recorded; true and `stream_running` set iff `init_playbin` succeeded |
| Video2.Video2.Step | src/video2.rs:104-119 | the new fields and the remaining bus are those of `Step` |
| Video2.Video2.CheckBus | src/video2.rs:346-418 | the new fields and the remaining bus are those of `CheckBus` |
| Video2.Video2.Shutdown | src/video2.rs:121-142 | the new fields are those of `Shutdown` |
| Launch.StepperName | src/lib.rs:208-373 | the name each switch's add and remove actions use; `StepperNamesDistinct` shows they are distinct |
| Launch.StepperNamesDistinct | src/lib.rs:200-375 | different switches use different stepper names, none of them `LogWindow` or `FlyOver` |
| Launch.PathJoin | src/lib.rs:232 | the joined path starts with the directory and ends with the relative path |
| Launch.FileSourceOf | src/lib.rs:229-353 | every switch but RTP and HTTPS plays a local MP4 or WebM file; exactly the playbin and decodebin switches put `file:` in front of the path |
| Launch.ExistingFile | src/lib.rs:231-233 | a file is found iff there is an external directory and the joined path exists |
| Launch.ResolveUri | src/lib.rs:231-245 | the scheme plus the path when the file exists; otherwise the "No File" or "No external path" placeholder for what was missing |
| Launch.SwitchStepper | src/lib.rs:200-375 | each switch starts its own stepper kind, source, size and v3 choice |
| Launch.ToggleAction | src/lib.rs:200-213 | on pushes an add and off a remove, both under the switch's stepper name; an add carries the stepper built from the resolved URI |
| Launch.DecodebinSwitchFront | src/lib.rs:310-375 | a decodebin switch reaches the URI decoder iff it is the HTTPS one or its file exists; a placeholder URI goes to `filesrc` |
| Launch.LastAbout | src/lib.rs:200-375 | the add or remove action about a name that no later action about that name follows, or none if no action names it |
| Launch.RunningAfter | src/lib.rs:200-375 | an action about one name decides whether that name is running and leaves every other name as it was |
| Launch.BoolText | src/lib.rs:130 | the event's value is `"true"` iff the flag is set |
| Launch.Launcher.constructor | src/lib.rs:118-122 | the hidden log window and the fly-over stepper are pushed; every flag is off; the invariant holds |
| Launch.Launcher.ToggleShowLog | src/lib.rs:189-192 | the frame's flag takes the widget's value; the closure's copy is flipped and sent; both copies agree when the widget flips the value |
| Launch.Launcher.ToggleDecodebin3 | src/lib.rs:194-196 | the v3 choice takes the widget's value and nothing else changes |
| Launch.Launcher.Toggle | src/lib.rs:200-375 | the switch's action is pushed and its flag takes the new value; a flag is set iff the last action about its stepper added it |
| CommandLine.Scan | src/main.rs:27-41 | the flags after the loop over the arguments; characterized by `ScanFlags` |
| CommandLine.Output | src/main.rs:27-41 | the lines printed by the loop, in order; characterized by `OutputAppend` and `QuietArguments` |
| CommandLine.ArgOutput | src/main.rs:28-39 | the flags print nothing; `--help` prints the usage; anything else prints the unknown-argument message for `-` or positional arguments, then the usage |
| CommandLine.ScanFlags | src/main.rs:27-30 | `headless` iff some argument is `--headless`, `is_testing` iff some argument is `--test` |
| CommandLine.ScanDependsOnlyOnMembers | src/main.rs:27-30 | order and repetition of the arguments do not change the flags |
| CommandLine.OutputAppend | src/main.rs:27-41 | parsing never stops: the output of a list is the outputs of its parts in order |
| CommandLine.QuietArguments | src/main.rs:27-41 | nothing is printed iff every argument is `--headless` or `--test` |
| CommandLine.ParseArgs | src/main.rs:24-41 | the loop's flags are those of `Scan`, set iff the flag appears, and its output is `Output` |
| CommandLine.Configure | src/main.rs:42-57 | fixed name, assets, origin, log filter and no flat-screen fallback; under `--test` off-screen iff headless, simulator otherwise, with unfocused sleep disabled; without `--test` mode and sleep are unchanged |
| CommandLine.ModeOfArguments | src/main.rs:24-57 | with `--test` the mode is off-screen iff `--headless` is given and simulator otherwise; without it the mode is the default |

## Left out

- The `Mutex` around the shared log list and the subscription to the runtime's log: the list is modelled single-threaded, one message at a time.
- LogCapture.LogLog.OnLog: the closure's two nested loops are split over three methods (`OnLog` for the lines, `CaptureLine` for the chunks of one line, `Absorb` for the dedup-or-push step); the behaviour is the same, kept in one method it is too large for the verifier.
- LogCapture.AddText: the item count is an unbounded natural number; `LogItem` is defined in the runtime library, which is not part of this model, so the width of its count and any overflow are not modelled.
- Log messages (`Log::diag`, `Log::err`, `Log::warn`, `Log::info`) written by the steppers, `initialize`'s error messages and the fps computation: output only.
- Sounds (`Sound::create_stream`, `play`, `stop`), textures, materials, meshes and text drawing in `step`: rendering and audio are outside the model.
- The appsink sample callbacks that copy audio and video buffers: streaming-thread code working on raw buffers.
- GStreamer element creation, linking, caps, ghost pads and `sync_state_with_parent`: a build is one success or failure given as input (`BuildOutcome`); where in a builder a failure happens is not modelled.
- `gstreamer_init` (Android codec queries and plugin ranks), `build.rs`, the Android activity and `a_stepper.rs`: platform set-up with no model-relevant logic.
- VideoLifecycle.CheckBus: a failed `Null` request after EOS or an error aborts the program (`expect`); the model assumes it succeeds.
- VideoLifecycle.PopFiltered: the 1 ms wait for a message is not modelled; only the messages already on the bus are considered.
- Video1.OnPadAdded: a failure while inserting a sink chain (only logged) is not modelled; the chain returned is the one the handler tries to insert.
- Video1.StaticChain: element properties other than the URI and location (RTP caps, port, buffer size) are not modelled.
- The sky dome radio buttons, the `Exit` button, poses and window layout in `launch`: UI and rendering.
- Launch.ResolveUri: a path that is not valid Unicode makes the source abort (`to_str().unwrap()`); paths are strings in the model.
- The log window's reading of the shared list and its reaction to the `ShowLogWindow` event: code of the runtime library.
- CommandLine.ParseArgs: an argument that is not valid Unicode makes `env::args` abort; arguments are strings in the model.
- CommandLine.Configure: the runtime's default settings are a parameter; settings `main` does not touch are not modelled.
- The Android entry point `android_main`: platform start-up.
