/**
 * The Linux backend (`capture/linux/backend.rs`): a session slot that keeps
 * the portal stream alive and an at-most-one recording slot. The desktop
 * portal and the media engine enter as recorded outcomes.
 */
module LinuxBackend {
  import opened Wrappers
  import opened Ints
  import opened Config
  import opened Capture
  import opened Encoding
  import Pipeline

  /** The portal's source types and cursor modes the picker is opened with. */
  datatype SourceType = MonitorType | WindowType
  datatype CursorMode = Embedded | Hidden

  /** The options of the picker dialog; a single source, nothing persisted. */
  datatype Picker = Picker(cursor: CursorMode, sourceType: SourceType, multiple: bool)

  /**
   * What keeps a selected stream valid: the portal session, represented by the
   * picker options its sources were selected with, its node and the PipeWire
   * remote descriptor.
   */
  datatype ActiveSession = ActiveSession(picker: Picker, nodeId: u32, pipewireFd: i32)

  datatype Backend = Backend(session: Option<ActiveSession>, recording: Option<Pipeline.RecordingPipeline>)

  /** A backend operation's result together with the backend afterwards. */
  datatype Called<T> = Called(result: Result<T, BackendError>, backend: Backend)

  /** `LinuxCaptureBackend::new()`: both slots empty. */
  const Fresh := Backend(None, None)

  /** Screen, monitor and region are all picked as a monitor; a region is cropped later. */
  function SourceTypeFor(s: CaptureSource): (t: SourceType)
    ensures t == WindowType <==> s == Window
  {
    match s
    case Screen => MonitorType
    case Monitor => MonitorType
    case Window => WindowType
    case Region => MonitorType
  }

  function PickerFor(config: CaptureConfig): (p: Picker)
    ensures p.cursor == Embedded <==> config.includeCursor
    ensures p.sourceType == MonitorType <==> config.source in {Screen, Monitor, Region}
    ensures !p.multiple
  {
    Picker(if config.includeCursor then Embedded else Hidden, SourceTypeFor(config.source), false)
  }

  /** A stream the portal hands back, with the size it reports, if any. */
  datatype PortalStream = PortalStream(nodeId: u32, size: Option<(i32, i32)>)

  /**
   * The portal's answers, one per round trip: a failure text or success for
   * connecting, creating the session, selecting sources, starting and reading
   * the response; then the streams and the PipeWire remote descriptor.
   */
  datatype Portal = Portal(
    connectFailure: Option<string>,
    sessionFailure: Option<string>,
    selectFailure: Option<string>,
    startFailure: Option<string>,
    responseFailure: Option<string>,
    streams: seq<PortalStream>,
    remote: Result<i32, string>)

  /** `part` occurs in `s` starting at position `i`. */
  predicate OccursAt(s: string, part: string, i: int) {
    0 <= i && i + |part| <= |s| && s[i..i + |part|] == part
  }

  /** `str::contains`. */
  predicate Contains(s: string, part: string) {
    exists i | 0 <= i <= |s| - |part| :: OccursAt(s, part, i)
  }

  /** Portal failures whose text mentions cancelling or denying are the user saying no. */
  predicate MeansDenied(text: string) {
    Contains(text, "cancelled") || Contains(text, "denied")
  }

  /** The classification of a failed source selection. */
  function SelectFailure(text: string): (e: BackendError)
    ensures e.PermissionDenied? <==> MeansDenied(text)
    ensures e.PortalError? <==> !MeansDenied(text)
  {
    if MeansDenied(text) then PermissionDenied("User cancelled selection")
    else PortalError("Failed to select sources: " + text)
  }

  /** The classification of a failed stream start. */
  function StartFailure(text: string): (e: BackendError)
    ensures e.PermissionDenied? <==> MeansDenied(text)
    ensures e.PortalError? <==> !MeansDenied(text)
  {
    if MeansDenied(text) then PermissionDenied("User denied screencast permission")
    else PortalError("Failed to start screencast: " + text)
  }

  /** Both dimensions or neither, from the stream's reported size. */
  function Dimensions(size: Option<(i32, i32)>): (d: (Option<u32>, Option<u32>))
    ensures d.0.Some? == size.Some? && d.1.Some? == size.Some?
    ensures size.Some? ==> d.0.value == I32AsU32(size.value.0) && d.1.value == I32AsU32(size.value.1)
  {
    match size
    case Some((w, h)) => (Some(I32AsU32(w)), Some(I32AsU32(h)))
    case None => (None, None)
  }

  /** All portal round trips succeeded and at least one stream came back. */
  predicate PortalSucceeds(portal: Portal) {
    && portal.connectFailure.None? && portal.sessionFailure.None? && portal.selectFailure.None?
    && portal.startFailure.None? && portal.responseFailure.None?
    && |portal.streams| > 0 && portal.remote.Ok?
  }

  /** Ask the portal for a source and keep its session alive in the session slot. */
  function RequestSelection(b: Backend, config: CaptureConfig, portal: Portal): (c: Called<SelectionResult>)
    ensures c.result.Ok? <==> PortalSucceeds(portal)
    ensures c.result.Err? ==> c.backend == b
    ensures c.result.Err? ==> c.result.error.PermissionDenied? || c.result.error.PortalError? || c.result.error.NoSourceAvailable?
    ensures c.result.Ok? ==>
      var stream := portal.streams[0];
      && c.result.value.nodeId == stream.nodeId
      && c.result.value.streamFd == Some(portal.remote.value)
      && (c.result.value.width.Some? <==> stream.size.Some?)
      && (c.result.value.height.Some? <==> stream.size.Some?)
      && c.backend == b.(session := Some(ActiveSession(PickerFor(config), stream.nodeId, portal.remote.value)))
    ensures (portal.connectFailure.None? && portal.sessionFailure.None? && portal.selectFailure.Some?) ==>
      c.result.Err? && (c.result.error.PermissionDenied? <==> MeansDenied(portal.selectFailure.value))
    ensures (portal.connectFailure.None? && portal.sessionFailure.None? && portal.selectFailure.None?
             && portal.startFailure.Some?) ==>
      c.result.Err? && (c.result.error.PermissionDenied? <==> MeansDenied(portal.startFailure.value))
    ensures (portal.connectFailure.None? && portal.sessionFailure.None? && portal.selectFailure.None?
             && portal.startFailure.None? && portal.responseFailure.None? && |portal.streams| == 0) ==>
      c.result == Err(NoSourceAvailable("No streams returned from portal"))
    ensures portal.connectFailure.Some? ==> c.result.Err? && c.result.error.PortalError?
    ensures (portal.connectFailure.None? && portal.sessionFailure.Some?) ==> c.result.Err? && c.result.error.PortalError?
    ensures (portal.connectFailure.None? && portal.sessionFailure.None? && portal.selectFailure.Some?) ==>
      c.result == Err(SelectFailure(portal.selectFailure.value))
    ensures (portal.connectFailure.None? && portal.sessionFailure.None? && portal.selectFailure.None?
             && portal.startFailure.Some?) ==>
      c.result == Err(StartFailure(portal.startFailure.value))
    ensures (portal.connectFailure.None? && portal.sessionFailure.None? && portal.selectFailure.None?
             && portal.startFailure.None? && portal.responseFailure.Some?) ==>
      c.result.Err? && c.result.error.PortalError?
    ensures (portal.connectFailure.None? && portal.sessionFailure.None? && portal.selectFailure.None?
             && portal.startFailure.None? && portal.responseFailure.None? && |portal.streams| > 0
             && portal.remote.Err?) ==>
      c.result.Err? && c.result.error.PortalError?
    ensures c.result.Ok? ==> (c.backend.session.value.picker.cursor == Embedded <==> config.includeCursor)
    ensures c.result.Ok? ==> (c.backend.session.value.picker.sourceType == WindowType <==> config.source == Window)
    ensures c.result.Ok? ==> (c.result.value.width, c.result.value.height) == Dimensions(portal.streams[0].size)
  {
    if portal.connectFailure.Some? then
      Called(Err(PortalError("Failed to connect to screencast portal: " + portal.connectFailure.value)), b)
    else if portal.sessionFailure.Some? then
      Called(Err(PortalError("Failed to create session: " + portal.sessionFailure.value)), b)
    else if portal.selectFailure.Some? then
      Called(Err(SelectFailure(portal.selectFailure.value)), b)
    else if portal.startFailure.Some? then
      Called(Err(StartFailure(portal.startFailure.value)), b)
    else if portal.responseFailure.Some? then
      Called(Err(PortalError("Failed to get response: " + portal.responseFailure.value)), b)
    else if |portal.streams| == 0 then
      Called(Err(NoSourceAvailable("No streams returned from portal")), b)
    else if portal.remote.Err? then
      Called(Err(PortalError("Failed to open PipeWire remote: " + portal.remote.error)), b)
    else
      var stream := portal.streams[0];
      var fd := portal.remote.value;
      var dims := Dimensions(stream.size);
      Called(Ok(SelectionResult(stream.nodeId, Some(fd), dims.0, dims.1)),
             b.(session := Some(ActiveSession(PickerFor(config), stream.nodeId, fd))))
  }

  /** Release the portal session; always succeeds. */
  function CancelSelection(b: Backend): (c: Called<()>)
    ensures c.result.Ok? && c.backend.session.None? && c.backend.recording == b.recording
  {
    Called(Ok(()), b.(session := None))
  }

  /**
   * The single-frame engine run of a screenshot: whether the engine
   * initialised, parsed the graph, started playing and offered a bus; the bus
   * messages read until none arrives for ten seconds; the size seen by the pad probe
   * (zero while unseen); and whether the file exists afterwards.
   */
  datatype ShotEngine = ShotEngine(
    initialized: bool,
    launched: bool,
    playing: bool,
    busAvailable: bool,
    msgs: seq<Pipeline.BusMessage>,
    probeWidth: u32,
    probeHeight: u32,
    fileExists: bool)

  /** The probe's size if it saw both; else the selection's if it has both; else 1920 by 1080. */
  function ScreenshotSize(probeWidth: u32, probeHeight: u32, selection: SelectionResult): (d: (u32, u32))
    ensures probeWidth != 0 && probeHeight != 0 ==> d == (probeWidth, probeHeight)
    ensures (probeWidth == 0 || probeHeight == 0) && selection.width.Some? && selection.height.Some? ==>
      d == (selection.width.value, selection.height.value)
    ensures (probeWidth == 0 || probeHeight == 0) && (selection.width.None? || selection.height.None?) ==>
      d == (1920, 1080)
  {
    if probeWidth == 0 || probeHeight == 0 then
      if selection.width.Some? && selection.height.Some? then (selection.width.value, selection.height.value)
      else (1920, 1080)
    else (probeWidth, probeHeight)
  }

  /** Capture one frame to `outputPath`; neither slot is touched. */
  function CaptureScreenshot(b: Backend, selection: SelectionResult, outputPath: string, engine: ShotEngine): (r: Result<ScreenshotResult, BackendError>)
    ensures r.Ok? <==>
      && engine.initialized && engine.launched && engine.playing && engine.busAvailable
      && Pipeline.WaitForEos(engine.msgs).Completed? && engine.fileExists
    ensures r.Err? ==> r.error.Internal?
    ensures (engine.initialized && engine.launched && engine.playing && engine.busAvailable
             && Pipeline.WaitForEos(engine.msgs).TimedOut?) ==> r == Err(Internal("Pipeline timed out"))
    ensures r.Ok? ==> r.value.path == outputPath
    ensures r.Ok? ==> (r.value.width, r.value.height) == ScreenshotSize(engine.probeWidth, engine.probeHeight, selection)
  {
    if !engine.initialized then Err(Internal("Failed to initialize GStreamer"))
    else if !engine.launched then Err(Internal("Failed to create pipeline"))
    else if !engine.playing then Err(Internal("Failed to start pipeline"))
    else if !engine.busAvailable then Err(Internal("Failed to get pipeline bus"))
    else
      match Pipeline.WaitForEos(engine.msgs)
      case Failed(text) => Err(Internal("Pipeline error: " + text))
      case TimedOut => Err(Internal("Pipeline timed out"))
      case Completed =>
        var size := ScreenshotSize(engine.probeWidth, engine.probeHeight, selection);
        if !engine.fileExists then Err(Internal("Screenshot file was not created"))
        else Ok(ScreenshotResult(outputPath, size.0, size.1))
  }

  /** The engine's answers when a recording is started: its registry, whether it parsed and started the graph, and the clock. */
  datatype StartEngine = StartEngine(registry: Registry, launched: bool, playing: bool, now: nat)

  /** The pipeline `start_recording` would build for this selection and configuration. */
  function Build(selection: SelectionResult, config: CaptureConfig, engine: StartEngine): Result<Pipeline.RecordingPipeline, BackendError> {
    Pipeline.New(engine.registry, selection.nodeId, config.outputPath, config.fps, config.container,
                 config.audio, selection.width, selection.height, engine.launched)
  }

  /** Build and start a pipeline; the slot is filled only once both have worked. */
  function StartRecording(b: Backend, selection: SelectionResult, config: CaptureConfig, engine: StartEngine): (c: Called<()>)
    ensures b.recording.Some? ==> c == Called(Err(Internal("Recording already in progress")), b)
    ensures c.result.Ok? <==> b.recording.None? && Build(selection, config, engine).Ok? && engine.playing
    ensures c.result.Err? ==> c.backend == b
    ensures c.result.Ok? ==>
      && c.backend.session == b.session
      && c.backend.recording == Some(Build(selection, config, engine).value.(startTime := Some(engine.now), run := Pipeline.Playing))
      && c.backend.recording.value.outputPath == config.outputPath
  {
    if b.recording.Some? then Called(Err(Internal("Recording already in progress")), b)
    else match Build(selection, config, engine)
      case Err(e) => Called(Err(e), b)
      case Ok(p) =>
        var started := Pipeline.Start(p, engine.playing, engine.now);
        if started.result.Err? then Called(Err(started.result.error), b)
        else Called(Ok(()), b.(recording := Some(started.pipeline)))
  }

  /** The engine's answers when a recording is stopped; see `Pipeline.Stop`. */
  datatype StopEngine = StopEngine(busAvailable: bool, msgs: seq<Pipeline.BusMessage>, elapsedMs: nat, fileExists: bool)

  /** Take the pipeline out of its slot and finalize it; the session is released only on success. */
  function StopRecording(b: Backend, engine: StopEngine): (c: Called<RecordingResult>)
    ensures b.recording.None? ==> c == Called(Err(Internal("No recording in progress")), b)
    ensures c.backend.recording.None?
    ensures b.recording.Some? ==>
      c.result == Pipeline.Stop(b.recording.value, engine.busAvailable, engine.msgs, engine.elapsedMs, engine.fileExists).result
    ensures c.result.Ok? ==> c.backend.session.None?
    ensures c.result.Err? ==> c.backend.session == b.session
  {
    match b.recording
    case None => Called(Err(Internal("No recording in progress")), b)
    case Some(p) =>
      var taken := b.(recording := None);
      var stopped := Pipeline.Stop(p, engine.busAvailable, engine.msgs, engine.elapsedMs, engine.fileExists);
      if stopped.result.Err? then Called(Err(stopped.result.error), taken)
      else Called(stopped.result, taken.(session := None))
  }

  /** Pause the pipeline in the slot; `accepted` is the engine's answer. */
  function PauseRecording(b: Backend, accepted: bool): (c: Called<()>)
    ensures b.recording.None? ==> c == Called(Err(Internal("No recording in progress")), b)
    ensures c.result.Ok? <==> b.recording.Some? && accepted
    ensures c.backend.session == b.session && c.backend.recording.Some? == b.recording.Some?
    ensures c.result.Ok? ==> c.backend.recording.value == b.recording.value.(run := Pipeline.Halted)
  {
    match b.recording
    case None => Called(Err(Internal("No recording in progress")), b)
    case Some(p) =>
      var changed := Pipeline.Pause(p, accepted);
      Called(changed.result, b.(recording := Some(changed.pipeline)))
  }

  /** Resume the pipeline in the slot; `accepted` is the engine's answer. */
  function ResumeRecording(b: Backend, accepted: bool): (c: Called<()>)
    ensures b.recording.None? ==> c == Called(Err(Internal("No recording in progress")), b)
    ensures c.result.Ok? <==> b.recording.Some? && accepted
    ensures c.backend.session == b.session && c.backend.recording.Some? == b.recording.Some?
    ensures c.result.Ok? ==> c.backend.recording.value == b.recording.value.(run := Pipeline.Playing)
  {
    match b.recording
    case None => Called(Err(Internal("No recording in progress")), b)
    case Some(p) =>
      var changed := Pipeline.Resume(p, accepted);
      Called(changed.result, b.(recording := Some(changed.pipeline)))
  }

  /** Unlike the fake, pausing twice is not rejected here: only an empty slot is. */
  lemma PauseTwiceAccepted(b: Backend)
    requires b.recording.Some?
    ensures PauseRecording(PauseRecording(b, true).backend, true).result.Ok?
  {
  }

  /** A second start while one recording is live fails and leaves the live one untouched. */
  lemma SecondStartRejected(b: Backend, selection: SelectionResult, config: CaptureConfig, engine: StartEngine, e2: StartEngine)
    requires StartRecording(b, selection, config, engine).result.Ok?
    ensures
      var first := StartRecording(b, selection, config, engine).backend;
      var second := StartRecording(first, selection, config, e2);
      second.result == Err(Internal("Recording already in progress")) && second.backend == first
  {
  }

  /** A stop that takes the slot leaves it empty, so a duplicate stop sees nothing active. */
  lemma DuplicateStopFails(b: Backend, e1: StopEngine, e2: StopEngine)
    ensures StopRecording(StopRecording(b, e1).backend, e2).result == Err(Internal("No recording in progress"))
  {
  }

  /** A portal error mentioning denial is reported as the user refusing permission. */
  lemma DeniedTextClassified(prefix: string, suffix: string)
    ensures SelectFailure(prefix + "denied" + suffix).PermissionDenied?
  {
    var text := prefix + "denied" + suffix;
    assert text[|prefix|..|prefix| + 6] == "denied";
    assert OccursAt(text, "denied", |prefix|);
  }
}
