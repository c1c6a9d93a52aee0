# OpenSnipping capture core, modelled in Dafny

This project models the capture-session core of OpenSnipping, a Tauri
screen-capture app. It covers the session state machine, capture
configuration and its validation, the backend error taxonomy and its mapping
onto user-facing error codes, encoder and muxer negotiation, the recording
pipeline lifecycle, the deterministic fake backend, the slot logic of the
Linux backend, and the command layer that drives all of them. Every part is
written as pure functions over immutable datatypes. An operation that mutates
state in the Rust code returns its result together with the new value here.

External collaborators enter as inputs:
- The desktop portal is a `LinuxBackend.Portal` record with one answer per round trip.
- The GStreamer element registry is an `Encoding.Registry`: the set of names it
  knows and the set it can instantiate.
- The pipeline bus is the finite sequence of messages popped until one pop
  finds nothing within its timeout. The timeout bounds each gap between
  messages, not the total wait.
- The engine's answers to `set_state` and `parse::launch` are booleans.
- The file system is a single "output file exists" boolean.
- Wall-clock time is an opaque natural number.

Fixed-width integers are subset types (`u8`, `u32`, `i32`). The wrap-around of
`AtomicU32::fetch_add` and of `i32 as u32` is written out explicitly.

Files, one module each (the helper modules share `wrappers.dfy`):
- `wrappers.dfy`: `Wrappers` (`Option`, `Result`) and `Ints`.
- `state.dfy`: `State`, from `state.rs`.
- `config.dfy`: `Config`, from `config.rs`.
- `capture.dfy`: `Capture`, from `capture/mod.rs`.
- `ipc_errors.dfy`: `IpcErrors`, from `ipc/errors.rs`.
- `encoding.dfy`: `Encoding`, from `capture/linux/encoding.rs`.
- `pipeline.dfy`: `Pipeline`, from `capture/linux/pipeline.rs`.
- `fake_backend.dfy`: `FakeBackend`, from `capture/fake/backend.rs`.
- `linux_backend.dfy`: `LinuxBackend`, from `capture/linux/backend.rs`.
- `commands.dfy`: `Commands`, from `ipc/commands.rs`.

The model follows the code in these places:
- The backend trait in `capture/mod.rs` declares only selection and
  cancellation. Both implementations also provide screenshot, start, stop,
  pause and resume, and the model gives each implementation all six.
- `capture/linux/backend.rs` passes a stream descriptor to
  `RecordingPipeline::new`, but the constructor in `pipeline.rs` takes none.
  The model follows `pipeline.rs`.
- The Linux backend's pause and resume reject only an empty recording slot.
  Only the fake also rejects pausing twice and resuming when not paused
  (`LinuxBackend.PauseTwiceAccepted`).
- After a failed portal selection, `start_capture` clears the stored
  configuration but not a stored selection.
- When its move to Selecting is rejected, `start_capture` has already replaced
  the stored configuration.
- The Linux screenshot falls back to 1920x1080, and the fake one to 100x100.
- The Linux `stop_recording` releases the portal session only when the pipeline
  stop succeeds. A failed stop still empties the recording slot.
- `start_recording_video` builds a fresh backend on every call. A second start
  therefore replaces the stored backend instead of being rejected
  (`Commands.SecondVideoStartReplacesBackend`).

## Model

| member | source | states |
|---|---|---|
| `Ints.IncU32` | opensnipping/src-tauri/src/capture/fake/backend.rs:157 | A counter increment adds one, and wraps to zero past the largest `u32`, as `fetch_add` does |
| `Ints.I32AsU32` | opensnipping/src-tauri/src/capture/linux/backend.rs:193-196 | `as u32` keeps non-negative values and wraps negative ones by 2^32 |
| `State.New` | opensnipping/src-tauri/src/state.rs:76-81 | A new machine is Idle with no recorded error |
| `State.Transition` | opensnipping/src-tauri/src/state.rs:92-141 | Succeeds iff (from, to) is one of the 14 table edges or from == to. On success the state is `to`, and the error is cleared unless `to` is Error. On rejection the machine is unchanged and the error names from and to, with the message "Cannot transition from X to Y" |
| `State.StartSelecting` | opensnipping/src-tauri/src/state.rs:144-146 | Succeeds exactly from Idle or Selecting and leaves Selecting with no error; otherwise nothing changes. It replies Selecting, or the rejection message naming the current state and Selecting |
| `State.CancelSelection` | opensnipping/src-tauri/src/state.rs:149-151 | Succeeds exactly from Idle, Selecting, Finalizing or Error and leaves a clean Idle; otherwise nothing changes. It replies Idle, or the rejection message naming the current state and Idle |
| `State.BeginRecording` | opensnipping/src-tauri/src/state.rs:154-156 | Succeeds exactly from Selecting, Recording or Paused and leaves Recording; otherwise nothing changes (Idle to Recording is rejected). It replies Recording, or the rejection message naming the current state and Recording |
| `State.Pause` | opensnipping/src-tauri/src/state.rs:159-161 | Succeeds exactly from Recording or Paused; otherwise nothing changes (Selecting to Paused is rejected). It replies Paused, or the rejection message naming the current state and Paused |
| `State.Resume` | opensnipping/src-tauri/src/state.rs:164-166 | Same target and same accepted sources as begin_recording: it depends only on the target state. It replies Recording, or the rejection message naming the current state and Recording |
| `State.Stop` | opensnipping/src-tauri/src/state.rs:169-171 | Succeeds exactly from Recording, Paused or Finalizing and leaves Finalizing. It replies Finalizing, or the rejection message naming the current state and Finalizing |
| `State.FinalizeComplete` | opensnipping/src-tauri/src/state.rs:174-176 | Same acceptance and result as cancel_selection: a move to Idle. It replies Idle, or the rejection message naming the current state and Idle |
| `State.Reset` | opensnipping/src-tauri/src/state.rs:186-188 | Same acceptance and result as cancel_selection: a move to Idle. It replies Idle, or the rejection message naming the current state and Idle |
| `State.SetError` | opensnipping/src-tauri/src/state.rs:178-183 | From any state, the machine is in Error with exactly the given error recorded, bypassing the table, and keeps "an error only in Error" |
| `State.ValidIsTable` | opensnipping/src-tauri/src/state.rs:95-126 | The decision procedure agrees with the explicit edge set plus the same-state rule, for all pairs |
| `State.ErrorReachableFromAll` | opensnipping/src-tauri/src/state.rs:98-123 | Every state may move to Error through the table (Error itself as a no-op) |
| `State.SetErrorThenReset` | opensnipping/src-tauri/src/state.rs:179-188 | set_error from any state gives Error with the given error, and a reset then gives a clean Idle |
| `State.TableErrorKeepsRecord` | opensnipping/src-tauri/src/state.rs:128-133 | A table move into Error keeps the recorded error, so from Idle it records none |
| `State.ApplyKeepsInvariant` | opensnipping/src-tauri/src/state.rs:128-183 | Every transition or set_error keeps "an error is recorded only in the Error state" |
| `State.RunKeepsInvariant` | opensnipping/src-tauri/src/state.rs:128-183 | Any sequence of transitions and set_error calls keeps that invariant |
| `State.ReachableKeepsInvariant` | opensnipping/src-tauri/src/state.rs:76-183 | Every machine reachable from a new one keeps that invariant |
| `State.FullRecordingFlow` | opensnipping/src-tauri/src/state.rs:202-228 | Idle, Selecting, Recording, Paused, Recording, Finalizing, Idle all succeed |
| `Config.Validate` | opensnipping/src-tauri/src/config.rs:71-88 | Ok iff 1 <= fps <= 60 and the path is non-empty. The error field is "fps" iff fps is out of range, and "output_path" iff fps is fine and the path is empty. Each field has its fixed message |
| `Config.FpsCheckedFirst` | opensnipping/src-tauri/src/config.rs:71-84 | A bad frame rate with an empty path reports "fps" |
| `Config.DefaultNeedsOutputPath` | opensnipping/src-tauri/src/config.rs:49-60 | The default is Screen, 30 fps, cursor on, no audio, Mp4 and an empty path. It fails only on output_path, and any non-empty path makes it valid |
| `Capture.Display` | opensnipping/src-tauri/src/capture/mod.rs:44-54 | The rendering is the variant's fixed prefix followed by the message |
| `Capture.DisplayRoundTrip` | opensnipping/src-tauri/src/capture/mod.rs:44-54 | Parsing the rendering back recovers the variant and the message |
| `Capture.DisplayInjective` | opensnipping/src-tauri/src/capture/mod.rs:31-54 | Distinct errors never render alike |
| `Capture.StubRequestSelection` | opensnipping/src-tauri/src/capture/mod.rs:95-102 | The stub's selection fails with NotSupported for every configuration |
| `Capture.StubCancelSelection` | opensnipping/src-tauri/src/capture/mod.rs:104-106 | The stub's cancellation always succeeds |
| `IpcErrors.ToCaptureError` | opensnipping/src-tauri/src/ipc/errors.rs:4-27 | Total and keeps the message. The code is PermissionDenied iff the error is PermissionDenied, PortalError iff it is PortalError or NoSourceAvailable, and Unknown iff it is NotSupported or Internal |
| `IpcErrors.MappingRange` | opensnipping/src-tauri/src/ipc/errors.rs:4-27 | The mapping never yields InvalidConfig, EncoderUnavailable, PipelineError or IoError |
| `IpcErrors.NoSourceLooksLikePortal` | opensnipping/src-tauri/src/ipc/errors.rs:14-17 | NoSourceAvailable and PortalError with the same message map to the same error |
| `Encoding.FirstUsable` | opensnipping/src-tauri/src/capture/linux/encoding.rs:40-51 | None iff no candidate is usable. Otherwise the result is a usable candidate with no usable candidate before it |
| `Encoding.DetectVideoEncoder` | opensnipping/src-tauri/src/capture/linux/encoding.rs:33-52 | None when the registry is not initialised. Any result is a usable H.264 candidate. The first candidate wins when usable. None iff no candidate is usable. A result is the candidate with no usable candidate before it in priority order |
| `Encoding.MuxerFor` | opensnipping/src-tauri/src/capture/linux/encoding.rs:55-60 | Every container has a non-empty muxer name |
| `Encoding.MuxersDistinct` | opensnipping/src-tauri/src/capture/linux/encoding.rs:55-60 | Mp4 gives "mp4mux", Mkv gives "matroskamux", and the two differ |
| `Encoding.DetectAudioEncoder` | opensnipping/src-tauri/src/capture/linux/encoding.rs:67-102 | None when not initialised. Any result is usable. For Mp4 it is the first usable AAC encoder in priority order, and None iff no AAC encoder is usable. For Mkv it is Opus, or the first usable AAC encoder only when no Opus encoder is usable, and None iff neither family has a usable encoder |
| `Encoding.MkvPrefersOpus` | opensnipping/src-tauri/src/capture/linux/encoding.rs:74-86 | For Mkv, Opus wins whenever it is usable |
| `Encoding.MkvFallsBackToAac` | opensnipping/src-tauri/src/capture/linux/encoding.rs:88-101 | Without a usable Opus encoder, Mkv makes exactly the AAC choice Mp4 would make |
| `Encoding.FirstUsableDependsOnUsability` | opensnipping/src-tauri/src/capture/linux/encoding.rs:40-51 | Two registries that agree on which candidates are usable give the same answer |
| `Encoding.DetectionDeterministic` | opensnipping/src-tauri/src/capture/linux/tests.rs:108-120 | Video and audio detection give the same answer under any registry that agrees on the candidates |
| `Encoding.UnloadableSkipped` | opensnipping/src-tauri/src/capture/linux/encoding.rs:41-43 | A first candidate that is found but cannot be instantiated is skipped |
| `Pipeline.RouteFor` | opensnipping/src-tauri/src/capture/linux/pipeline.rs:60-160 | Silent iff no audio, and mixed iff both flags. The microphone is an input iff mic, the default monitor is an input iff system, and there is one input per flag |
| `Pipeline.New` | opensnipping/src-tauri/src/capture/linux/pipeline.rs:31-179 | Ok iff the engine initialises, a video encoder is found, an audio encoder is found when audio is requested, and the graph parses. All errors are Internal. The graph has the node, the framerate, the chosen encoders, the container's muxer (named iff audio), the route and the output location. Not started. Width and height default independently to 1920 and 1080 |
| `Pipeline.Start` | opensnipping/src-tauri/src/capture/linux/pipeline.rs:182-193 | On success the pipeline plays and its start time is set; on failure it is Internal and the start time is unchanged |
| `Pipeline.Pause` | opensnipping/src-tauri/src/capture/linux/pipeline.rs:198-209 | On success the pipeline is halted, with no check of its current state; on failure it is Internal and the pipeline is unchanged |
| `Pipeline.Resume` | opensnipping/src-tauri/src/capture/linux/pipeline.rs:214-225 | On success the pipeline plays again; on failure it is Internal and the pipeline is unchanged |
| `Pipeline.WaitForEos` | opensnipping/src-tauri/src/capture/linux/pipeline.rs:248-277 | Times out iff every message is neither EOS nor an error. Otherwise the outcome is that of the first EOS or error message |
| `Pipeline.WaitStopsAtFirstSignificant` | opensnipping/src-tauri/src/capture/linux/pipeline.rs:248-277 | Messages of other types before the first EOS or error are skipped, and nothing after it is read |
| `Pipeline.Stop` | opensnipping/src-tauri/src/capture/linux/pipeline.rs:230-302 | Without a bus it fails and nothing changes. Otherwise the pipeline is always set to Null. Ok iff the wait saw no error and the file exists, and all errors are Internal. The result has the output path, the constructed width and height, and zero duration for a pipeline that never started |
| `Pipeline.StopProceedsOnTimeout` | opensnipping/src-tauri/src/capture/linux/pipeline.rs:272-276 | A timeout is not an error: with the file present, stop succeeds |
| `Pipeline.NeverStartedHasZeroDuration` | opensnipping/src-tauri/src/capture/linux/pipeline.rs:234-237 | Stopping a never-started pipeline reports 0 ms |
| `Pipeline.VideoOnlyIgnoresAudio` | opensnipping/src-tauri/src/capture/linux/pipeline.rs:56-64 | With no audio requested, construction succeeds even with no audio encoder, and the route is silent |
| `Pipeline.BothAudioIsMixed` | opensnipping/src-tauri/src/capture/linux/pipeline.rs:67-94 | Both flags give one mixer of the default source and "@DEFAULT_MONITOR@", encoded once |
| `FakeBackend.Configured` | opensnipping/src-tauri/src/capture/fake/backend.rs:167-178 | The failure variant is PermissionDenied, PortalError or NoSourceAvailable exactly according to the configured kind |
| `FakeBackend.RequestSelection` | opensnipping/src-tauri/src/capture/fake/backend.rs:153-180 | Always counts the call. Succeeds iff configured to, with the configured node, no descriptor and 1920x1080. Otherwise it returns the configured kind |
| `FakeBackend.CancelSelection` | opensnipping/src-tauri/src/capture/fake/backend.rs:182-185 | Always succeeds and only counts the call |
| `FakeBackend.CaptureScreenshot` | opensnipping/src-tauri/src/capture/fake/backend.rs:187-225 | Ok iff configured to succeed and the file is written. Otherwise the configured kind, or Internal for a failed write. The size is the selection's, each side defaulting to 100 |
| `FakeBackend.StartRecording` | opensnipping/src-tauri/src/capture/fake/backend.rs:227-264 | Always counts the call. Ok iff configured to succeed and not already recording. A second start fails with Internal, and any failure changes only the counter. Success stores the configured output path and start time |
| `FakeBackend.StopRecording` | opensnipping/src-tauri/src/capture/fake/backend.rs:266-301 | Always counts the call. Ok iff recording, otherwise Internal. Success clears recording, paused, the start time and the stored path and touches nothing else. It returns the stored path, the elapsed time (0 with no start time) and 1920x1080 |
| `FakeBackend.PauseRecording` | opensnipping/src-tauri/src/capture/fake/backend.rs:303-320 | Ok iff recording and not paused, and then sets paused. Otherwise Internal with only the counter changed |
| `FakeBackend.ResumeRecording` | opensnipping/src-tauri/src/capture/fake/backend.rs:322-339 | Ok iff recording and paused, and then clears paused. Otherwise Internal with only the counter changed |
| `FakeBackend.PerformKeepsConsistent` | opensnipping/src-tauri/src/capture/fake/backend.rs:153-339 | Every call keeps: paused implies recording, and a path and start time are stored exactly while recording |
| `FakeBackend.PerformAllKeepsConsistent` | opensnipping/src-tauri/src/capture/fake/tests/recording.rs:247-281 | Any sequence of calls keeps that invariant, so paused always implies recording |
| `FakeBackend.StopReturnsStartedPath` | opensnipping/src-tauri/src/capture/fake/backend.rs:256-288 | In a consistent fake, stop returns the path given at start and never the fallback path |
| `FakeBackend.FailingPresetsRefuse` | opensnipping/src-tauri/src/capture/fake/tests/selection.rs:17-41 | The permission-denied and portal-error presets refuse a selection with PermissionDenied and PortalError respectively, and count the call |
| `FakeBackend.SecondStartRejected` | opensnipping/src-tauri/src/capture/fake/tests/recording.rs:42-64 | A second start fails with Internal, keeps the first recording's path, and counts both calls |
| `FakeBackend.EndToEndFlow` | opensnipping/src-tauri/src/capture/fake/tests/recording.rs:247-281 | Select node 99, start, pause, resume and stop all succeed with the expected flags, counters and path |
| `FakeBackend.ScreenshotDimensions` | opensnipping/src-tauri/src/capture/fake/backend.rs:207-209 | 64x48 is kept, missing sides become 100, and each side defaults independently |
| `LinuxBackend.SourceTypeFor` | opensnipping/src-tauri/src/capture/linux/backend.rs:58-66 | Window maps to the Window portal type; every other source maps to Monitor |
| `LinuxBackend.PickerFor` | opensnipping/src-tauri/src/capture/linux/backend.rs:109-128 | The cursor is embedded iff include_cursor. The source type follows the source, and one source is picked |
| `LinuxBackend.SelectFailure` | opensnipping/src-tauri/src/capture/linux/backend.rs:130-137 | A select failure is PermissionDenied iff its text contains "cancelled" or "denied", and PortalError otherwise |
| `LinuxBackend.StartFailure` | opensnipping/src-tauri/src/capture/linux/backend.rs:145-154 | The same classification for a failed stream start |
| `LinuxBackend.DeniedTextClassified` | opensnipping/src-tauri/src/capture/linux/backend.rs:130-137 | Any failure text with "denied" inside is classified as PermissionDenied |
| `LinuxBackend.Dimensions` | opensnipping/src-tauri/src/capture/linux/backend.rs:193-196 | Width and height are both present or both absent, according to the reported size |
| `LinuxBackend.RequestSelection` | opensnipping/src-tauri/src/capture/linux/backend.rs:85-204 | Ok iff every portal step succeeds and a stream exists. It then returns the first stream's node and the remote descriptor, and stores the session, opened with the picker the configuration asks for: cursor embedded iff include_cursor, and the window type iff the source is a window. Width and height are the stream's reported size, cast as `as u32` does. Failures leave the backend unchanged and are only PermissionDenied, PortalError or NoSourceAvailable. Connect, session, response and remote-descriptor failures are PortalError. A failed select or start is classified by its text. No streams gives NoSourceAvailable |
| `LinuxBackend.CancelSelection` | opensnipping/src-tauri/src/capture/linux/backend.rs:206-211 | Always succeeds, clears the session slot and keeps the recording slot |
| `LinuxBackend.ScreenshotSize` | opensnipping/src-tauri/src/capture/linux/backend.rs:371-382 | The probe size if both sides are non-zero, else the selection's if both are present, else 1920x1080 |
| `LinuxBackend.CaptureScreenshot` | opensnipping/src-tauri/src/capture/linux/backend.rs:213-401 | Ok iff the engine steps succeed, the bus reaches EOS and the file exists. Every error is Internal, and a bus timeout is an error here. The result has the output path and the fallback size |
| `LinuxBackend.StartRecording` | opensnipping/src-tauri/src/capture/linux/backend.rs:403-453 | An occupied slot gives Internal and no change. Ok iff the slot is empty and the pipeline is both built and started. Only then is the playing pipeline stored, and the session is untouched |
| `LinuxBackend.StopRecording` | opensnipping/src-tauri/src/capture/linux/backend.rs:455-482 | An empty slot gives Internal. Otherwise the slot is always emptied and the result is the pipeline's stop. The session is cleared only on success |
| `LinuxBackend.PauseRecording` | opensnipping/src-tauri/src/capture/linux/backend.rs:484-493 | Fails with Internal only for an empty slot. Otherwise the result is the engine's answer, and on success the stored pipeline is halted |
| `LinuxBackend.ResumeRecording` | opensnipping/src-tauri/src/capture/linux/backend.rs:495-504 | Fails with Internal only for an empty slot. Otherwise the result is the engine's answer, and on success the stored pipeline plays |
| `LinuxBackend.PauseTwiceAccepted` | opensnipping/src-tauri/src/capture/linux/backend.rs:484-493 | Pausing twice is accepted when the engine accepts it |
| `LinuxBackend.SecondStartRejected` | opensnipping/src-tauri/src/capture/linux/backend.rs:416-425 | A second start while recording fails with Internal and leaves the live recording untouched |
| `LinuxBackend.DuplicateStopFails` | opensnipping/src-tauri/src/capture/linux/backend.rs:459-465 | After any stop, a second stop sees no recording |
| `Commands.InvalidConfig` | opensnipping/src-tauri/src/ipc/commands.rs:34-37 | An invalid configuration becomes code InvalidConfig with message "field: message" |
| `Commands.StartCapture` | opensnipping/src-tauri/src/ipc/commands.rs:26-106 | Invalid config: the reply is the "field: message" text, and the machine is in Error with InvalidConfig; the config is not stored. Rejected move to Selecting: the reply is the transition's rejection message, and only the new config is stored, with no portal call. Portal success: the reply is Recording, with config and selection stored. Portal failure: the reply is the mapped error's bare message, the machine is in Error with that error, and the config is cleared |
| `Commands.CancelCapture` | opensnipping/src-tauri/src/ipc/commands.rs:109-124 | Succeeds exactly when the move to Idle is allowed, and only then clears config and selection. The reply is Ok(Idle), or the bare "Cannot transition from X to Idle" message |
| `Commands.FinalizeComplete` | opensnipping/src-tauri/src/ipc/commands.rs:245-260 | Succeeds exactly when the move to Idle is allowed, and only then clears config and selection. The reply is Ok(Idle), or the bare "Cannot transition from X to Idle" message |
| `Commands.ResetError` | opensnipping/src-tauri/src/ipc/commands.rs:263-276 | Moves to Idle when allowed and changes nothing else. The reply is Ok(Idle), or the bare "Cannot transition from X to Idle" message |
| `Commands.BeginRecording` | opensnipping/src-tauri/src/ipc/commands.rs:127-140 | Moves to Recording when allowed and changes nothing else. The reply is Ok(Recording), or the bare "Cannot transition from X to Recording" message |
| `Commands.PauseRecording` | opensnipping/src-tauri/src/ipc/commands.rs:143-156 | Moves to Paused when allowed and changes nothing else. The reply is Ok(Paused), or the bare "Cannot transition from X to Paused" message |
| `Commands.ResumeRecording` | opensnipping/src-tauri/src/ipc/commands.rs:159-172 | Moves to Recording when allowed and changes nothing else. The reply is Ok(Recording), or the bare "Cannot transition from X to Recording" message |
| `Commands.StopRecording` | opensnipping/src-tauri/src/ipc/commands.rs:229-242 | Moves to Finalizing when allowed and changes nothing else. The reply is Ok(Finalizing), or the bare "Cannot transition from X to Finalizing" message |
| `Commands.TakeScreenshot` | opensnipping/src-tauri/src/ipc/commands.rs:280-348 | Never changes the application state. An invalid config gives the field-tagged message. Ok iff the config is valid, selection succeeds and the capture succeeds. The reply is the backend's screenshot result unchanged, and a failed selection or capture gives the mapped error's bare message |
| `Commands.StartRecordingVideo` | opensnipping/src-tauri/src/ipc/commands.rs:353-403 | Fails without a stored config or selection. Stores a backend holding a recording iff the backend start succeeds. What it stores is exactly the backend that started the recording, and nothing else changes. A failed start replies with the mapped error's bare message |
| `Commands.StopRecordingVideo` | opensnipping/src-tauri/src/ipc/commands.rs:408-467 | Always empties the backend slot, failing without one. On failure nothing else changes, and the reply is the mapped error's bare message. On success the reply is the backend's recording result unchanged; it moves through Finalizing to Idle when allowed and clears config and selection |
| `Commands.PauseRecordingVideo` | opensnipping/src-tauri/src/ipc/commands.rs:177-189 | Fails without a stored backend. Otherwise the stored backend becomes the one the backend's pause returned, and a failure is reported as "Failed to pause recording: " and the error's text. It never touches the machine, config or selection |
| `Commands.ResumeRecordingVideo` | opensnipping/src-tauri/src/ipc/commands.rs:194-208 | Fails without a stored backend. Otherwise the stored backend becomes the one the backend's resume returned, and a failure is reported as "Failed to resume recording: " and the error's text. It never touches the machine, config or selection |
| `Commands.ExecuteKeepsCoherent` | opensnipping/src-tauri/src/ipc/commands.rs:26-467 | Every command keeps four facts: an error is recorded only in Error, the machine never rests in Selecting, Recording or Paused has config and selection, and a stored backend holds a recording |
| `Commands.ExecuteAllKeepsCoherent` | opensnipping/src-tauri/src/ipc/commands.rs:26-467 | Any sequence of commands keeps that coherence |
| `Commands.ReachableIsCoherent` | opensnipping/src-tauri/src/lib.rs:37-46 | Every application state reachable from start-up is coherent |
| `Commands.InvalidFpsReported` | opensnipping/src-tauri/src/ipc/commands.rs:32-41 | fps 0 gives "fps: FPS must be between 1 and 60" as the reply and the recorded error, and stores nothing |
| `Commands.FullSessionReturnsToInitial` | opensnipping/src-tauri/src/ipc/commands.rs:26-467 | Capture, start video, pause, resume and stop video all succeed, and the application ends in its start-up state |
| `Commands.SecondVideoStartReplacesBackend` | opensnipping/src-tauri/src/ipc/commands.rs:374-384 | A second video start succeeds and replaces the stored backend |

## Left out

- Portal D-Bus traffic (proxy and session creation, the picker, `open_pipe_wire_remote`) and the leaked proxy lifetime: the portal's answers are inputs, and the session is a plain record.
- GStreamer itself: launch strings, `set_state`, EOS events, pad probes and blocking `timed_pop`. The registry is a pair of name sets, the bus is a message sequence, the graph is an abstract `Graph`, and engine answers are booleans.
- The exact text of engine errors, including the appended debug information: error messages keep only their fixed part, or the failure text given as input.
- The file system: PNG writing in the fake is a "saved" boolean, and `exists()` is a "file exists" boolean.
- Wall-clock time: start instants and elapsed milliseconds are opaque naturals; pause time is not excluded from the duration, as in the code.
- Concurrency: mutexes, `Arc` and atomics become plain fields of a sequential state, and each call is atomic.
- Tauri glue: event emission, the event payload types, `ping`, `get_state` (it reads `machine.state`) and the UUID screenshot path, which is an input.
- The non-Linux builds of the video commands, which only return "Recording not implemented for this platform". The orchestrator models the Linux build.
- Serde serialisation round trips of the configuration.
- `capture/linux.rs` and `capture/fake.rs`: superseded duplicates of the module directories.
- The fake's setters (`set_should_succeed`, `set_node_id`): they are record updates of `FakeBackend.Fake`.
- Commands.ExecuteKeepsCoherent: the conjunct "the machine never rests in Selecting" holds only because `start_capture` is one atomic step here. In the program, `start_selecting`, the awaited portal request and `begin_recording` are separate steps (commands.rs:51, :64, :82). During the await, `get_state` can observe Selecting and `cancel_capture` can move out of it.
- Pipeline.Stop: the end-of-stream event is sent before the bus is looked up; the model does not represent that event when there is no bus.
