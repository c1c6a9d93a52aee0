/**
 * The command layer (`ipc/commands.rs`) over an explicit application state:
 * the state machine, the stored configuration and selection, and the stored
 * Linux backend of the live recording. Each command returns the reply the
 * user interface receives and the application state afterwards.
 */
module Commands {
  import opened Wrappers
  import opened Config
  import State
  import Capture
  import IpcErrors
  import LinuxBackend
  import Pipeline

  datatype AppState = AppState(
    machine: State.StateMachine,
    config: Option<CaptureConfig>,
    selection: Option<Capture.SelectionResult>,
    backend: Option<LinuxBackend.Backend>)

  /** `AppState::default()`: Idle machine, nothing stored. */
  const Initial := AppState(State.New(), None, None, None)

  datatype Reply<T> = Reply(result: Result<T, string>, app: AppState)

  /** The user-visible error for an invalid configuration: `field: message`. */
  function InvalidConfig(err: ConfigError): (e: State.CaptureError)
    ensures e.code == State.InvalidConfig
    ensures e.message == err.field + ": " + err.message
  {
    State.CaptureError(State.InvalidConfig, err.field + ": " + err.message)
  }

  /** The reply of a command that only drives the machine. */
  function Answer(m: State.Moved): Result<State.CaptureState, string> {
    if m.result.Ok? then Ok(m.result.value) else Err(m.result.error.message)
  }

  /**
   * Validate, store the configuration, move to Selecting, ask the portal
   * (through a fresh backend, as `get_backend()` builds one per call), then
   * store the selection and move to Recording, or record the mapped error.
   */
  function StartCapture(app: AppState, config: CaptureConfig, portal: LinuxBackend.Portal): (r: Reply<State.CaptureState>)
    ensures r.app.backend == app.backend
    ensures Validate(config).Err? ==>
      && r.result == Err(InvalidConfig(Validate(config).error).message)
      && r.app == app.(machine := State.StateMachine(State.Error, Some(InvalidConfig(Validate(config).error))))
    ensures Validate(config).Ok? && app.machine.state !in {State.Idle, State.Selecting} ==>
      r.result == Err(State.Rejection(app.machine.state, State.Selecting)) && r.app == app.(config := Some(config))
    ensures (Validate(config).Ok? && app.machine.state in {State.Idle, State.Selecting}
             && LinuxBackend.PortalSucceeds(portal)) ==>
      && r.result == Ok(State.Recording)
      && r.app.machine == State.StateMachine(State.Recording, None)
      && r.app.config == Some(config)
      && r.app.selection == Some(LinuxBackend.RequestSelection(LinuxBackend.Fresh, config, portal).result.value)
    ensures (Validate(config).Ok? && app.machine.state in {State.Idle, State.Selecting}
             && !LinuxBackend.PortalSucceeds(portal)) ==>
      && r.result == Err(IpcErrors.ToCaptureError(LinuxBackend.RequestSelection(LinuxBackend.Fresh, config, portal).result.error).message)
      && r.app.machine == State.StateMachine(State.Error,
           Some(IpcErrors.ToCaptureError(LinuxBackend.RequestSelection(LinuxBackend.Fresh, config, portal).result.error)))
      && r.app.config.None?
      && r.app.selection == app.selection
  {
    match Validate(config)
    case Err(err) =>
      var error := InvalidConfig(err);
      Reply(Err(error.message), app.(machine := State.SetError(app.machine, error)))
    case Ok(_) =>
      var stored := app.(config := Some(config));
      var selecting := State.StartSelecting(stored.machine);
      if selecting.result.Err? then Reply(Err(selecting.result.error.message), stored)
      else
        var waiting := stored.(machine := selecting.machine);
        var selected := LinuxBackend.RequestSelection(LinuxBackend.Fresh, config, portal);
        match selected.result
        case Ok(selection) =>
          var withSelection := waiting.(selection := Some(selection));
          var recording := State.BeginRecording(withSelection.machine);
          Reply(Answer(recording), withSelection.(machine := recording.machine))
        case Err(e) =>
          var error := IpcErrors.ToCaptureError(e);
          Reply(Err(error.message), waiting.(machine := State.SetError(waiting.machine, error), config := None))
  }

  /** Return to Idle; configuration and selection are dropped only if the move is allowed. */
  function CancelCapture(app: AppState): (r: Reply<State.CaptureState>)
    ensures r.result.Ok? <==> app.machine.state in {State.Idle, State.Selecting, State.Finalizing, State.Error}
    ensures r.result.Ok? ==> r.app == AppState(State.StateMachine(State.Idle, None), None, None, app.backend)
    ensures r.result.Err? ==> r.app == app
    ensures r.result.Ok? ==> r.result.value == State.Idle
    ensures r.result.Err? ==> r.result.error == State.Rejection(app.machine.state, State.Idle)
  {
    var m := State.CancelSelection(app.machine);
    if m.result.Ok? then Reply(Answer(m), app.(machine := m.machine, config := None, selection := None))
    else Reply(Answer(m), app)
  }

  /** Finish finalizing; like cancelling, it drops configuration and selection only on success. */
  function FinalizeComplete(app: AppState): (r: Reply<State.CaptureState>)
    ensures r.result.Ok? <==> app.machine.state in {State.Idle, State.Selecting, State.Finalizing, State.Error}
    ensures r.result.Ok? ==> r.app == AppState(State.StateMachine(State.Idle, None), None, None, app.backend)
    ensures r.result.Err? ==> r.app == app
    ensures r.result.Ok? ==> r.result.value == State.Idle
    ensures r.result.Err? ==> r.result.error == State.Rejection(app.machine.state, State.Idle)
  {
    var m := State.FinalizeComplete(app.machine);
    if m.result.Ok? then Reply(Answer(m), app.(machine := m.machine, config := None, selection := None))
    else Reply(Answer(m), app)
  }

  /** Leave the Error state; nothing but the machine changes. */
  function ResetError(app: AppState): (r: Reply<State.CaptureState>)
    ensures r.result.Ok? <==> app.machine.state in {State.Idle, State.Selecting, State.Finalizing, State.Error}
    ensures r.result.Ok? ==> r.app == app.(machine := State.StateMachine(State.Idle, None))
    ensures r.result.Err? ==> r.app == app
    ensures r.result.Ok? ==> r.result.value == State.Idle
    ensures r.result.Err? ==> r.result.error == State.Rejection(app.machine.state, State.Idle)
  {
    var m := State.Reset(app.machine);
    Reply(Answer(m), app.(machine := m.machine))
  }

  /** The machine-only `begin_recording` command. */
  function BeginRecording(app: AppState): (r: Reply<State.CaptureState>)
    ensures r.result.Ok? <==> app.machine.state in {State.Selecting, State.Recording, State.Paused}
    ensures r.result.Ok? ==> r.app == app.(machine := State.StateMachine(State.Recording, None))
    ensures r.result.Err? ==> r.app == app
    ensures r.result.Ok? ==> r.result.value == State.Recording
    ensures r.result.Err? ==> r.result.error == State.Rejection(app.machine.state, State.Recording)
  {
    var m := State.BeginRecording(app.machine);
    Reply(Answer(m), app.(machine := m.machine))
  }

  /** The machine-only `pause_recording` command. */
  function PauseRecording(app: AppState): (r: Reply<State.CaptureState>)
    ensures r.result.Ok? <==> app.machine.state in {State.Recording, State.Paused}
    ensures r.result.Ok? ==> r.app == app.(machine := State.StateMachine(State.Paused, None))
    ensures r.result.Err? ==> r.app == app
    ensures r.result.Ok? ==> r.result.value == State.Paused
    ensures r.result.Err? ==> r.result.error == State.Rejection(app.machine.state, State.Paused)
  {
    var m := State.Pause(app.machine);
    Reply(Answer(m), app.(machine := m.machine))
  }

  /** The machine-only `resume_recording` command. */
  function ResumeRecording(app: AppState): (r: Reply<State.CaptureState>)
    ensures r.result.Ok? <==> app.machine.state in {State.Selecting, State.Recording, State.Paused}
    ensures r.result.Ok? ==> r.app == app.(machine := State.StateMachine(State.Recording, None))
    ensures r.result.Err? ==> r.app == app
    ensures r.result.Ok? ==> r.result.value == State.Recording
    ensures r.result.Err? ==> r.result.error == State.Rejection(app.machine.state, State.Recording)
  {
    var m := State.Resume(app.machine);
    Reply(Answer(m), app.(machine := m.machine))
  }

  /** The machine-only `stop_recording` command. */
  function StopRecording(app: AppState): (r: Reply<State.CaptureState>)
    ensures r.result.Ok? <==> app.machine.state in {State.Recording, State.Paused, State.Finalizing}
    ensures r.result.Ok? ==> r.app == app.(machine := State.StateMachine(State.Finalizing, None))
    ensures r.result.Err? ==> r.app == app
    ensures r.result.Ok? ==> r.result.value == State.Finalizing
    ensures r.result.Err? ==> r.result.error == State.Rejection(app.machine.state, State.Finalizing)
  {
    var m := State.Stop(app.machine);
    Reply(Answer(m), app.(machine := m.machine))
  }

  /** Select through the portal and grab one frame to `outputPath`; the application state is never touched. */
  function TakeScreenshot(app: AppState, config: CaptureConfig, portal: LinuxBackend.Portal, outputPath: string,
                          engine: LinuxBackend.ShotEngine): (r: Reply<Capture.ScreenshotResult>)
    ensures r.app == app
    ensures Validate(config).Err? ==> r.result == Err(InvalidConfig(Validate(config).error).message)
    ensures r.result.Ok? <==>
      && Validate(config).Ok? && LinuxBackend.PortalSucceeds(portal)
      && LinuxBackend.CaptureScreenshot(LinuxBackend.Fresh, LinuxBackend.RequestSelection(LinuxBackend.Fresh, config, portal).result.value,
                                        outputPath, engine).Ok?
    ensures r.result.Ok? ==> r.result.value.path == outputPath
    ensures r.result.Ok? ==>
      r.result.value == LinuxBackend.CaptureScreenshot(LinuxBackend.Fresh, LinuxBackend.RequestSelection(LinuxBackend.Fresh, config, portal).result.value,
                                                       outputPath, engine).value
    ensures Validate(config).Ok? && LinuxBackend.RequestSelection(LinuxBackend.Fresh, config, portal).result.Err? ==>
      r.result == Err(IpcErrors.ToCaptureError(LinuxBackend.RequestSelection(LinuxBackend.Fresh, config, portal).result.error).message)
    ensures (Validate(config).Ok? && LinuxBackend.PortalSucceeds(portal)
             && LinuxBackend.CaptureScreenshot(LinuxBackend.Fresh, LinuxBackend.RequestSelection(LinuxBackend.Fresh, config, portal).result.value,
                                               outputPath, engine).Err?) ==>
      r.result == Err(IpcErrors.ToCaptureError(
        LinuxBackend.CaptureScreenshot(LinuxBackend.Fresh, LinuxBackend.RequestSelection(LinuxBackend.Fresh, config, portal).result.value,
                                       outputPath, engine).error).message)
  {
    match Validate(config)
    case Err(err) => Reply(Err(InvalidConfig(err).message), app)
    case Ok(_) =>
      var selected := LinuxBackend.RequestSelection(LinuxBackend.Fresh, config, portal);
      match selected.result
      case Err(e) => Reply(Err(IpcErrors.ToCaptureError(e).message), app)
      case Ok(selection) =>
        match LinuxBackend.CaptureScreenshot(selected.backend, selection, outputPath, engine)
        case Ok(shot) => Reply(Ok(shot), app)
        case Err(e) => Reply(Err(IpcErrors.ToCaptureError(e).message), app)
  }

  /**
   * Start recording the stored selection with the stored configuration on a
   * new backend, which is kept only if the recording started.
   */
  function StartRecordingVideo(app: AppState, engine: LinuxBackend.StartEngine): (r: Reply<()>)
    ensures r.app.machine == app.machine && r.app.config == app.config && r.app.selection == app.selection
    ensures app.config.None? ==> r == Reply(Err("No capture config set. Call start_capture first."), app)
    ensures app.config.Some? && app.selection.None? ==> r == Reply(Err("No selection available. Call start_capture first."), app)
    ensures r.result.Ok? <==>
      && app.config.Some? && app.selection.Some?
      && LinuxBackend.StartRecording(LinuxBackend.Fresh, app.selection.value, app.config.value, engine).result.Ok?
    ensures r.result.Ok? ==> r.app.backend.Some? && r.app.backend.value.recording.Some?
    ensures r.result.Ok? ==>
      r.app.backend == Some(LinuxBackend.StartRecording(LinuxBackend.Fresh, app.selection.value, app.config.value, engine).backend)
    ensures (app.config.Some? && app.selection.Some?
             && LinuxBackend.StartRecording(LinuxBackend.Fresh, app.selection.value, app.config.value, engine).result.Err?) ==>
      r.result == Err(IpcErrors.ToCaptureError(
        LinuxBackend.StartRecording(LinuxBackend.Fresh, app.selection.value, app.config.value, engine).result.error).message)
    ensures r.result.Err? ==> r.app == app
  {
    if app.config.None? then Reply(Err("No capture config set. Call start_capture first."), app)
    else if app.selection.None? then Reply(Err("No selection available. Call start_capture first."), app)
    else
      var started := LinuxBackend.StartRecording(LinuxBackend.Fresh, app.selection.value, app.config.value, engine);
      if started.result.Ok? then Reply(Ok(()), app.(backend := Some(started.backend)))
      else Reply(Err(IpcErrors.ToCaptureError(started.result.error).message), app)
  }

  /**
   * Take the stored backend out and stop its recording; on success move
   * through Finalizing to Idle and drop configuration and selection.
   */
  function StopRecordingVideo(app: AppState, engine: LinuxBackend.StopEngine): (r: Reply<Capture.RecordingResult>)
    ensures r.app.backend.None?
    ensures app.backend.None? ==> r == Reply(Err("No recording in progress"), app)
    ensures app.backend.Some? ==>
      (r.result.Ok? <==> LinuxBackend.StopRecording(app.backend.value, engine).result.Ok?)
    ensures r.result.Err? ==> r.app == app.(backend := None)
    ensures app.backend.Some? && LinuxBackend.StopRecording(app.backend.value, engine).result.Err? ==>
      r.result == Err(IpcErrors.ToCaptureError(LinuxBackend.StopRecording(app.backend.value, engine).result.error).message)
    ensures r.result.Ok? ==> r.app.config.None? && r.app.selection.None?
    ensures r.result.Ok? ==> r.result.value == LinuxBackend.StopRecording(app.backend.value, engine).result.value
    ensures r.result.Ok? && app.machine.state in {State.Recording, State.Paused, State.Finalizing} ==>
      r.app.machine == State.StateMachine(State.Idle, None)
    ensures r.result.Ok? && app.machine.state !in {State.Recording, State.Paused, State.Finalizing} ==>
      r.app.machine == app.machine
  {
    match app.backend
    case None => Reply(Err("No recording in progress"), app)
    case Some(backend) =>
      var taken := app.(backend := None);
      var stopped := LinuxBackend.StopRecording(backend, engine);
      match stopped.result
      case Err(e) => Reply(Err(IpcErrors.ToCaptureError(e).message), taken)
      case Ok(result) =>
        var finalizing := State.Stop(taken.machine);
        var machine :=
          if finalizing.result.Ok? then State.FinalizeComplete(finalizing.machine).machine else taken.machine;
        Reply(Ok(result), taken.(machine := machine, config := None, selection := None))
  }

  /** Pause the stored backend's pipeline; the machine is not consulted. */
  function PauseRecordingVideo(app: AppState, accepted: bool): (r: Reply<()>)
    ensures app.backend.None? ==> r == Reply(Err("No recording in progress"), app)
    ensures r.result.Ok? <==> app.backend.Some? && app.backend.value.recording.Some? && accepted
    ensures r.app.machine == app.machine && r.app.config == app.config && r.app.selection == app.selection
    ensures r.app.backend.Some? == app.backend.Some?
    ensures app.backend.Some? ==> r.app.backend.value.recording.Some? == app.backend.value.recording.Some?
    ensures app.backend.Some? ==> r.app.backend == Some(LinuxBackend.PauseRecording(app.backend.value, accepted).backend)
    ensures app.backend.Some? && r.result.Err? ==>
      r.result == Err("Failed to pause recording: " + Capture.Display(LinuxBackend.PauseRecording(app.backend.value, accepted).result.error))
  {
    match app.backend
    case None => Reply(Err("No recording in progress"), app)
    case Some(backend) =>
      var paused := LinuxBackend.PauseRecording(backend, accepted);
      var reply := if paused.result.Ok? then Ok(()) else Err("Failed to pause recording: " + Capture.Display(paused.result.error));
      Reply(reply, app.(backend := Some(paused.backend)))
  }

  /** Resume the stored backend's pipeline; the machine is not consulted. */
  function ResumeRecordingVideo(app: AppState, accepted: bool): (r: Reply<()>)
    ensures app.backend.None? ==> r == Reply(Err("No recording in progress"), app)
    ensures r.result.Ok? <==> app.backend.Some? && app.backend.value.recording.Some? && accepted
    ensures r.app.machine == app.machine && r.app.config == app.config && r.app.selection == app.selection
    ensures r.app.backend.Some? == app.backend.Some?
    ensures app.backend.Some? ==> r.app.backend.value.recording.Some? == app.backend.value.recording.Some?
    ensures app.backend.Some? ==> r.app.backend == Some(LinuxBackend.ResumeRecording(app.backend.value, accepted).backend)
    ensures app.backend.Some? && r.result.Err? ==>
      r.result == Err("Failed to resume recording: " + Capture.Display(LinuxBackend.ResumeRecording(app.backend.value, accepted).result.error))
  {
    match app.backend
    case None => Reply(Err("No recording in progress"), app)
    case Some(backend) =>
      var resumed := LinuxBackend.ResumeRecording(backend, accepted);
      var reply := if resumed.result.Ok? then Ok(()) else Err("Failed to resume recording: " + Capture.Display(resumed.result.error));
      Reply(reply, app.(backend := Some(resumed.backend)))
  }

  /**
   * The application state's coherence: an error is on record only in Error,
   * the machine never rests in Selecting, a recording or paused session has
   * its configuration and selection, and a stored backend holds a recording.
   */
  predicate Coherent(app: AppState) {
    && State.ErrorOnlyInError(app.machine)
    && app.machine.state != State.Selecting
    && (app.machine.state in {State.Recording, State.Paused} ==> app.config.Some? && app.selection.Some?)
    && (app.backend.Some? ==> app.backend.value.recording.Some?)
  }

  /** One command from the user interface, with the inputs the environment supplies. */
  datatype Command =
    | StartCaptureCall(config: CaptureConfig, portal: LinuxBackend.Portal)
    | CancelCaptureCall
    | BeginRecordingCall
    | PauseRecordingCall
    | ResumeRecordingCall
    | StopRecordingCall
    | FinalizeCompleteCall
    | ResetErrorCall
    | TakeScreenshotCall(config: CaptureConfig, portal: LinuxBackend.Portal, outputPath: string, shot: LinuxBackend.ShotEngine)
    | StartRecordingVideoCall(start: LinuxBackend.StartEngine)
    | StopRecordingVideoCall(stop: LinuxBackend.StopEngine)
    | PauseRecordingVideoCall(accepted: bool)
    | ResumeRecordingVideoCall(accepted: bool)

  function Execute(app: AppState, cmd: Command): AppState {
    match cmd
    case StartCaptureCall(config, portal) => StartCapture(app, config, portal).app
    case CancelCaptureCall => CancelCapture(app).app
    case BeginRecordingCall => BeginRecording(app).app
    case PauseRecordingCall => PauseRecording(app).app
    case ResumeRecordingCall => ResumeRecording(app).app
    case StopRecordingCall => StopRecording(app).app
    case FinalizeCompleteCall => FinalizeComplete(app).app
    case ResetErrorCall => ResetError(app).app
    case TakeScreenshotCall(config, portal, path, shot) => TakeScreenshot(app, config, portal, path, shot).app
    case StartRecordingVideoCall(start) => StartRecordingVideo(app, start).app
    case StopRecordingVideoCall(stop) => StopRecordingVideo(app, stop).app
    case PauseRecordingVideoCall(accepted) => PauseRecordingVideo(app, accepted).app
    case ResumeRecordingVideoCall(accepted) => ResumeRecordingVideo(app, accepted).app
  }

  function ExecuteAll(app: AppState, cmds: seq<Command>): AppState
    decreases |cmds|
  {
    if |cmds| == 0 then app else ExecuteAll(Execute(app, cmds[0]), cmds[1..])
  }

  /** Every command keeps the application state coherent. */
  lemma ExecuteKeepsCoherent(app: AppState, cmd: Command)
    requires Coherent(app)
    ensures Coherent(Execute(app, cmd))
  {
    match cmd
    case StartCaptureCall(config, portal) =>
      var r := StartCapture(app, config, portal);
      if Validate(config).Ok? && app.machine.state in {State.Idle, State.Selecting} {
        assert r.app.machine.state in {State.Recording, State.Error};
      }
    case _ =>
  }

  /** Any sequence of commands keeps the application state coherent. */
  lemma {:induction false} ExecuteAllKeepsCoherent(app: AppState, cmds: seq<Command>)
    requires Coherent(app)
    ensures Coherent(ExecuteAll(app, cmds))
    decreases |cmds|
  {
    if |cmds| > 0 {
      ExecuteKeepsCoherent(app, cmds[0]);
      ExecuteAllKeepsCoherent(Execute(app, cmds[0]), cmds[1..]);
    }
  }

  /** Everything reachable from start-up is coherent. */
  lemma ReachableIsCoherent(cmds: seq<Command>)
    ensures Coherent(ExecuteAll(Initial, cmds))
  {
    ExecuteAllKeepsCoherent(Initial, cmds);
  }

  /** An invalid frame rate puts the machine in Error with the field-tagged message and stores nothing. */
  lemma InvalidFpsReported(app: AppState, config: CaptureConfig, portal: LinuxBackend.Portal)
    requires config.fps == 0
    ensures
      var r := StartCapture(app, config, portal);
      && r.result == Err("fps: FPS must be between 1 and 60")
      && r.app.machine.state == State.Error
      && r.app.machine.lastError == Some(State.CaptureError(State.InvalidConfig, "fps: FPS must be between 1 and 60"))
      && r.app.config == app.config
  {
    assert "fps" + ": " + FPS_MESSAGE == "fps: FPS must be between 1 and 60";
  }

  /**
   * A complete session (capture, start the video, pause and resume both the
   * machine and the pipeline, stop the video) brings the application back to
   * its start-up state.
   */
  lemma FullSessionReturnsToInitial(config: CaptureConfig, portal: LinuxBackend.Portal,
                                    start: LinuxBackend.StartEngine, stop: LinuxBackend.StopEngine)
    requires Validate(config).Ok? && LinuxBackend.PortalSucceeds(portal)
    requires LinuxBackend.StartRecording(LinuxBackend.Fresh,
               LinuxBackend.RequestSelection(LinuxBackend.Fresh, config, portal).result.value, config, start).result.Ok?
    requires stop.busAvailable && !Pipeline.WaitForEos(stop.msgs).Failed? && stop.fileExists
    ensures
      var a1 := StartCapture(Initial, config, portal);
      var a2 := StartRecordingVideo(a1.app, start);
      var a3 := PauseRecording(a2.app);
      var a4 := PauseRecordingVideo(a3.app, true);
      var a5 := ResumeRecording(a4.app);
      var a6 := ResumeRecordingVideo(a5.app, true);
      var a7 := StopRecordingVideo(a6.app, stop);
      && a1.result == Ok(State.Recording) && a2.result.Ok? && a3.result == Ok(State.Paused)
      && a4.result.Ok? && a5.result == Ok(State.Recording) && a6.result.Ok?
      && a7.result.Ok? && a7.result.value.path == config.outputPath
      && a7.app == Initial
  {
  }

  /** Each video start builds a fresh backend, so a second start replaces the stored one instead of failing. */
  lemma SecondVideoStartReplacesBackend(app: AppState, e1: LinuxBackend.StartEngine, e2: LinuxBackend.StartEngine)
    requires StartRecordingVideo(app, e1).result.Ok? && StartRecordingVideo(app, e2).result.Ok?
    ensures StartRecordingVideo(StartRecordingVideo(app, e1).app, e2).result.Ok?
    ensures StartRecordingVideo(StartRecordingVideo(app, e1).app, e2).app.backend == StartRecordingVideo(app, e2).app.backend
  {
  }
}
