/**
 * The deterministic fake backend (`capture/fake/backend.rs`): configurable
 * success or failure kind, a node id to hand out, recording and paused
 * flags, and wrapping call counters.
 */
module FakeBackend {
  import opened Wrappers
  import opened Ints
  import opened Config
  import opened Capture

  /** The failure kind a failing fake reports. */
  datatype FakeError = DeniedKind | PortalKind | NoSourceKind

  datatype Fake = Fake(
    shouldSucceed: bool,
    errorKind: FakeError,
    nodeId: u32,
    selectionCount: u32,
    cancelCount: u32,
    isRecording: bool,
    isPaused: bool,
    recordingStart: Option<nat>,
    recordingOutputPath: Option<string>,
    startCount: u32,
    stopCount: u32,
    pauseCount: u32,
    resumeCount: u32)

  /** A backend operation's result together with the backend afterwards. */
  datatype Called<T> = Called(result: Result<T, BackendError>, fake: Fake)

  /** `FakeCaptureBackend::new()`: succeeding, node 42, nothing counted, not recording. */
  const Initial := Fake(true, DeniedKind, 42, 0, 0, false, false, None, None, 0, 0, 0, 0)

  /** `FakeCaptureBackend::permission_denied()`. */
  const PermissionDeniedFake := Initial.(shouldSucceed := false, errorKind := DeniedKind)

  /** `FakeCaptureBackend::portal_error()`. */
  const PortalErrorFake := Initial.(shouldSucceed := false, errorKind := PortalKind)

  const FALLBACK_OUTPUT := "/tmp/fake_recording.mp4"

  /** The configured failure, with the per-operation messages. */
  function Configured(kind: FakeError, denied: string, portal: string, noSource: string): (e: BackendError)
    ensures e.PermissionDenied? <==> kind == DeniedKind
    ensures e.PortalError? <==> kind == PortalKind
    ensures e.NoSourceAvailable? <==> kind == NoSourceKind
  {
    match kind
    case DeniedKind => PermissionDenied(denied)
    case PortalKind => PortalError(portal)
    case NoSourceKind => NoSourceAvailable(noSource)
  }

  /** The failure kind a configured error reports. */
  predicate KindMatches(kind: FakeError, e: BackendError) {
    match kind
    case DeniedKind => e.PermissionDenied?
    case PortalKind => e.PortalError?
    case NoSourceKind => e.NoSourceAvailable?
  }

  function RequestSelection(f: Fake, config: CaptureConfig): (c: Called<SelectionResult>)
    ensures c.fake == f.(selectionCount := IncU32(f.selectionCount))
    ensures c.result.Ok? <==> f.shouldSucceed
    ensures c.result.Ok? ==> c.result.value == SelectionResult(f.nodeId, None, Some(1920), Some(1080))
    ensures c.result.Err? ==> KindMatches(f.errorKind, c.result.error)
  {
    var f' := f.(selectionCount := IncU32(f.selectionCount));
    if f.shouldSucceed then Called(Ok(SelectionResult(f.nodeId, None, Some(1920), Some(1080))), f')
    else Called(Err(Configured(f.errorKind, "User cancelled", "Portal unavailable", "No display found")), f')
  }

  function CancelSelection(f: Fake): (c: Called<()>)
    ensures c.result.Ok?
    ensures c.fake == f.(cancelCount := IncU32(f.cancelCount))
  {
    Called(Ok(()), f.(cancelCount := IncU32(f.cancelCount)))
  }

  /**
   * Writes a placeholder image of the selection's size; `saved` says whether
   * writing the file worked. The backend itself is left as it was.
   */
  function CaptureScreenshot(f: Fake, selection: SelectionResult, outputPath: string, saved: bool): (r: Result<ScreenshotResult, BackendError>)
    ensures r.Ok? <==> f.shouldSucceed && saved
    ensures !f.shouldSucceed ==> r.Err? && KindMatches(f.errorKind, r.error)
    ensures f.shouldSucceed && !saved ==> r.Err? && r.error.Internal?
    ensures r.Ok? ==> r.value.path == outputPath
    ensures r.Ok? ==> r.value.width == selection.width.GetOr(100) && r.value.height == selection.height.GetOr(100)
  {
    if !f.shouldSucceed then
      Err(Configured(f.errorKind, "Screenshot permission denied", "Portal unavailable for screenshot", "No display for screenshot"))
    else if !saved then Err(Internal("Failed to save placeholder PNG"))
    else Ok(ScreenshotResult(outputPath, selection.width.GetOr(100), selection.height.GetOr(100)))
  }

  function StartRecording(f: Fake, selection: SelectionResult, config: CaptureConfig, now: nat): (c: Called<()>)
    ensures c.fake.startCount == IncU32(f.startCount)
    ensures c.result.Ok? <==> f.shouldSucceed && !f.isRecording
    ensures !f.shouldSucceed ==> c.result.Err? && KindMatches(f.errorKind, c.result.error)
    ensures f.shouldSucceed && f.isRecording ==> c.result.Err? && c.result.error.Internal?
    ensures c.result.Err? ==> c.fake == f.(startCount := IncU32(f.startCount))
    ensures c.result.Ok? ==> c.fake.isRecording && c.fake.recordingOutputPath == Some(config.outputPath)
    ensures c.result.Ok? ==> c.fake == f.(startCount := IncU32(f.startCount), isRecording := true,
                                         recordingStart := Some(now), recordingOutputPath := Some(config.outputPath))
  {
    var f' := f.(startCount := IncU32(f.startCount));
    if !f.shouldSucceed then
      Called(Err(Configured(f.errorKind, "Recording permission denied", "Recording portal error", "No source for recording")), f')
    else if f.isRecording then Called(Err(Internal("Recording already in progress")), f')
    else Called(Ok(()), f'.(isRecording := true, recordingStart := Some(now), recordingOutputPath := Some(config.outputPath)))
  }

  /** `elapsedMs` is the wall-clock time since the recording started. */
  function StopRecording(f: Fake, elapsedMs: nat): (c: Called<RecordingResult>)
    ensures c.fake.stopCount == IncU32(f.stopCount)
    ensures c.result.Ok? <==> f.isRecording
    ensures c.result.Err? ==> c.result.error.Internal? && c.fake == f.(stopCount := IncU32(f.stopCount))
    ensures c.result.Ok? ==> !c.fake.isRecording && !c.fake.isPaused
    ensures c.result.Ok? ==> c.result.value.width == 1920 && c.result.value.height == 1080
    ensures c.result.Ok? ==> c.result.value.path == f.recordingOutputPath.GetOr(FALLBACK_OUTPUT)
    ensures c.result.Ok? ==> c.result.value.durationMs == (if f.recordingStart.Some? then elapsedMs else 0)
    ensures c.result.Ok? ==> c.fake == f.(stopCount := IncU32(f.stopCount), isRecording := false, isPaused := false,
                                         recordingStart := None, recordingOutputPath := None)
  {
    var f' := f.(stopCount := IncU32(f.stopCount));
    if !f.isRecording then Called(Err(Internal("No recording in progress")), f')
    else
      var duration := if f.recordingStart.Some? then elapsedMs else 0;
      var path := f.recordingOutputPath.GetOr(FALLBACK_OUTPUT);
      Called(Ok(RecordingResult(path, duration, 1920, 1080)),
             f'.(isRecording := false, isPaused := false, recordingStart := None, recordingOutputPath := None))
  }

  function PauseRecording(f: Fake): (c: Called<()>)
    ensures c.fake.pauseCount == IncU32(f.pauseCount)
    ensures c.result.Ok? <==> f.isRecording && !f.isPaused
    ensures c.result.Err? ==> c.result.error.Internal? && c.fake == f.(pauseCount := IncU32(f.pauseCount))
    ensures c.result.Ok? ==> c.fake == f.(pauseCount := IncU32(f.pauseCount), isPaused := true)
  {
    var f' := f.(pauseCount := IncU32(f.pauseCount));
    if !f.isRecording then Called(Err(Internal("No recording in progress")), f')
    else if f.isPaused then Called(Err(Internal("Recording is already paused")), f')
    else Called(Ok(()), f'.(isPaused := true))
  }

  function ResumeRecording(f: Fake): (c: Called<()>)
    ensures c.fake.resumeCount == IncU32(f.resumeCount)
    ensures c.result.Ok? <==> f.isRecording && f.isPaused
    ensures c.result.Err? ==> c.result.error.Internal? && c.fake == f.(resumeCount := IncU32(f.resumeCount))
    ensures c.result.Ok? ==> c.fake == f.(resumeCount := IncU32(f.resumeCount), isPaused := false)
  {
    var f' := f.(resumeCount := IncU32(f.resumeCount));
    if !f.isRecording then Called(Err(Internal("No recording in progress")), f')
    else if !f.isPaused then Called(Err(Internal("Recording is not paused")), f')
    else Called(Ok(()), f'.(isPaused := false))
  }

  /**
   * The fake's consistency: paused only while recording, and an output path
   * and start time are stored exactly while recording.
   */
  predicate Consistent(f: Fake) {
    && (f.isPaused ==> f.isRecording)
    && (f.isRecording <==> f.recordingOutputPath.Some?)
    && (f.isRecording <==> f.recordingStart.Some?)
  }

  /** One call on the backend, with the inputs the environment supplies. */
  datatype Call =
    | Select(config: CaptureConfig)
    | Cancel
    | Screenshot(selection: SelectionResult, outputPath: string, saved: bool)
    | StartRec(selection: SelectionResult, config: CaptureConfig, now: nat)
    | StopRec(elapsedMs: nat)
    | PauseRec
    | ResumeRec

  function Perform(f: Fake, call: Call): Fake {
    match call
    case Select(config) => RequestSelection(f, config).fake
    case Cancel => CancelSelection(f).fake
    case Screenshot(_, _, _) => f
    case StartRec(selection, config, now) => StartRecording(f, selection, config, now).fake
    case StopRec(elapsed) => StopRecording(f, elapsed).fake
    case PauseRec => PauseRecording(f).fake
    case ResumeRec => ResumeRecording(f).fake
  }

  function PerformAll(f: Fake, calls: seq<Call>): Fake
    decreases |calls|
  {
    if |calls| == 0 then f else PerformAll(Perform(f, calls[0]), calls[1..])
  }

  /** Every call keeps the fake consistent. */
  lemma PerformKeepsConsistent(f: Fake, call: Call)
    requires Consistent(f)
    ensures Consistent(Perform(f, call))
  {
  }

  /** Any sequence of calls keeps the fake consistent; in particular paused implies recording. */
  lemma {:induction false} PerformAllKeepsConsistent(f: Fake, calls: seq<Call>)
    requires Consistent(f)
    ensures Consistent(PerformAll(f, calls))
    decreases |calls|
  {
    if |calls| > 0 {
      PerformKeepsConsistent(f, calls[0]);
      PerformAllKeepsConsistent(Perform(f, calls[0]), calls[1..]);
    }
  }

  /** In a consistent fake, stopping returns the path stored at start, never the fallback. */
  lemma StopReturnsStartedPath(f: Fake, selection: SelectionResult, config: CaptureConfig, now: nat, elapsedMs: nat)
    requires Consistent(f) && f.shouldSucceed && !f.isRecording
    ensures
      var started := StartRecording(f, selection, config, now);
      var stopped := StopRecording(started.fake, elapsedMs);
      && started.result.Ok? && stopped.result.Ok?
      && stopped.result.value.path == config.outputPath
      && stopped.result.value.durationMs == elapsedMs
      && !stopped.fake.isRecording
  {
  }

  /** The two failing presets refuse a selection with their kind, and still count the call. */
  lemma FailingPresetsRefuse(config: CaptureConfig)
    ensures var c := RequestSelection(PermissionDeniedFake, config);
      c.result.Err? && c.result.error.PermissionDenied? && c.fake.selectionCount == 1
    ensures var c := RequestSelection(PortalErrorFake, config);
      c.result.Err? && c.result.error.PortalError? && c.fake.selectionCount == 1
  {
  }

  /** A second start without a stop fails with Internal and leaves the first recording in place. */
  lemma SecondStartRejected(f: Fake, selection: SelectionResult, config: CaptureConfig, c2: CaptureConfig, now: nat, later: nat)
    requires f.shouldSucceed && !f.isRecording
    ensures
      var first := StartRecording(f, selection, config, now);
      var second := StartRecording(first.fake, selection, c2, later);
      && second.result.Err? && second.result.error.Internal?
      && second.fake.isRecording && second.fake.recordingOutputPath == Some(config.outputPath)
      && second.fake.startCount == IncU32(IncU32(f.startCount))
  {
  }

  /** The end-to-end flow: select node 99, start, pause, resume, stop. */
  lemma EndToEndFlow(config: CaptureConfig, now: nat, elapsedMs: nat)
    ensures
      var f0 := Initial.(nodeId := 99);
      var sel := RequestSelection(f0, config);
      var start := StartRecording(sel.fake, sel.result.value, config, now);
      var pause := PauseRecording(start.fake);
      var resume := ResumeRecording(pause.fake);
      var stop := StopRecording(resume.fake, elapsedMs);
      && sel.result.Ok? && sel.result.value.nodeId == 99 && sel.fake.selectionCount == 1
      && start.result.Ok? && start.fake.isRecording
      && pause.result.Ok? && pause.fake.isPaused
      && resume.result.Ok? && !resume.fake.isPaused
      && stop.result.Ok? && stop.result.value.path == config.outputPath && !stop.fake.isRecording
      && stop.fake.startCount == 1 && stop.fake.pauseCount == 1
      && stop.fake.resumeCount == 1 && stop.fake.stopCount == 1
  {
  }

  /** Screenshot dimensions come from the selection, each defaulting to 100 on its own. */
  lemma ScreenshotDimensions(f: Fake, path: string)
    requires f.shouldSucceed
    ensures CaptureScreenshot(f, SelectionResult(1, None, Some(64), Some(48)), path, true) == Ok(ScreenshotResult(path, 64, 48))
    ensures CaptureScreenshot(f, SelectionResult(1, None, None, None), path, true) == Ok(ScreenshotResult(path, 100, 100))
    ensures CaptureScreenshot(f, SelectionResult(1, None, Some(64), None), path, true) == Ok(ScreenshotResult(path, 64, 100))
  {
  }
}
