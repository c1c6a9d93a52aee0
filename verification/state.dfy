/**
 * The capture session state machine (`state.rs`): six states, a fixed
 * transition table with same-state no-ops, and a recorded last error that is
 * cleared on entry to any state other than Error.
 */
module State {
  import opened Wrappers

  datatype CaptureState = Idle | Selecting | Recording | Paused | Finalizing | Error

  /** Error codes shown to the user interface. */
  datatype ErrorCode =
    | PermissionDenied
    | PortalError
    | EncoderUnavailable
    | PipelineError
    | IoError
    | InvalidConfig
    | Unknown

  datatype CaptureError = CaptureError(code: ErrorCode, message: string)

  datatype TransitionError = TransitionError(from: CaptureState, to: CaptureState, message: string)

  datatype StateMachine = StateMachine(state: CaptureState, lastError: Option<CaptureError>)

  /** The outcome of a transition: what the caller gets back, and the machine afterwards. */
  datatype Moved = Moved(result: Result<CaptureState, TransitionError>, machine: StateMachine)

  /** `{:?}` formatting of a state. */
  function Name(s: CaptureState): string {
    match s
    case Idle => "Idle"
    case Selecting => "Selecting"
    case Recording => "Recording"
    case Paused => "Paused"
    case Finalizing => "Finalizing"
    case Error => "Error"
  }

  /** The text of a rejected transition, naming both ends. */
  function Rejection(from: CaptureState, to: CaptureState): string {
    "Cannot transition from " + Name(from) + " to " + Name(to)
  }

  /**
   * The fourteen edges of the table, as an explicit set of pairs; an
   * independent reference for the decision procedure `Valid`.
   */
  const Edges: set<(CaptureState, CaptureState)> := {
    (Idle, Selecting), (Idle, Error),
    (Selecting, Recording), (Selecting, Idle), (Selecting, Error),
    (Recording, Paused), (Recording, Finalizing), (Recording, Error),
    (Paused, Recording), (Paused, Finalizing), (Paused, Error),
    (Finalizing, Idle), (Finalizing, Error),
    (Error, Idle)
  }

  /** The match in `transition`: is moving from `from` to `to` allowed? */
  predicate Valid(from: CaptureState, to: CaptureState) {
    match (from, to)
    case (Idle, Selecting) => true
    case (Idle, Error) => true
    case (Selecting, Recording) => true
    case (Selecting, Idle) => true
    case (Selecting, Error) => true
    case (Recording, Paused) => true
    case (Recording, Finalizing) => true
    case (Recording, Error) => true
    case (Paused, Recording) => true
    case (Paused, Finalizing) => true
    case (Paused, Error) => true
    case (Finalizing, Idle) => true
    case (Finalizing, Error) => true
    case (Error, Idle) => true
    case (a, b) => a == b
  }

  /** A fresh machine. */
  function New(): (sm: StateMachine)
    ensures sm.state == Idle && sm.lastError == None
  {
    StateMachine(Idle, None)
  }

  /** Validate and perform one transition. */
  function Transition(sm: StateMachine, to: CaptureState): (m: Moved)
    ensures m.result.Ok? <==> (sm.state, to) in Edges || sm.state == to
    ensures m.result.Ok? ==> m.result.value == to && m.machine.state == to
    ensures m.result.Ok? && to != Error ==> m.machine.lastError == None
    ensures m.result.Ok? && to == Error ==> m.machine.lastError == sm.lastError
    ensures m.result.Err? ==> m.machine == sm
    ensures m.result.Err? ==> m.result.error.from == sm.state && m.result.error.to == to
    ensures m.result.Err? ==> m.result.error.message == Rejection(sm.state, to)
  {
    var from := sm.state;
    if Valid(from, to) then
      var cleared := if to != Error then None else sm.lastError;
      Moved(Ok(to), StateMachine(to, cleared))
    else
      Moved(Err(TransitionError(from, to, Rejection(from, to))), sm)
  }

  /** Start capture (Idle to Selecting). */
  function StartSelecting(sm: StateMachine): (m: Moved)
    ensures m.result.Ok? <==> sm.state in {Idle, Selecting}
    ensures m.result.Ok? ==> m.machine == StateMachine(Selecting, None)
    ensures m.result.Err? ==> m.machine == sm
    ensures m.result.Ok? ==> m.result.value == Selecting
    ensures m.result.Err? ==> m.result.error.message == Rejection(sm.state, Selecting)
  {
    Transition(sm, Selecting)
  }

  /** Cancel selection (Selecting to Idle). */
  function CancelSelection(sm: StateMachine): (m: Moved)
    ensures m.result.Ok? <==> sm.state in {Idle, Selecting, Finalizing, Error}
    ensures m.result.Ok? ==> m.machine == StateMachine(Idle, None)
    ensures m.result.Err? ==> m.machine == sm
    ensures m.result.Ok? ==> m.result.value == Idle
    ensures m.result.Err? ==> m.result.error.message == Rejection(sm.state, Idle)
  {
    Transition(sm, Idle)
  }

  /** Begin recording (Selecting to Recording). */
  function BeginRecording(sm: StateMachine): (m: Moved)
    ensures m.result.Ok? <==> sm.state in {Selecting, Recording, Paused}
    ensures m.result.Ok? ==> m.machine == StateMachine(Recording, None)
    ensures m.result.Err? ==> m.machine == sm
    ensures m.result.Ok? ==> m.result.value == Recording
    ensures m.result.Err? ==> m.result.error.message == Rejection(sm.state, Recording)
  {
    Transition(sm, Recording)
  }

  /** Pause recording (Recording to Paused). */
  function Pause(sm: StateMachine): (m: Moved)
    ensures m.result.Ok? <==> sm.state in {Recording, Paused}
    ensures m.result.Ok? ==> m.machine == StateMachine(Paused, None)
    ensures m.result.Err? ==> m.machine == sm
    ensures m.result.Ok? ==> m.result.value == Paused
    ensures m.result.Err? ==> m.result.error.message == Rejection(sm.state, Paused)
  {
    Transition(sm, Paused)
  }

  /** Resume recording (Paused to Recording). */
  function Resume(sm: StateMachine): (m: Moved)
    ensures m.result.Ok? <==> sm.state in {Selecting, Recording, Paused}
    ensures m.result.Ok? ==> m.machine == StateMachine(Recording, None)
    ensures m.result.Err? ==> m.machine == sm
    ensures m.result.Ok? ==> m.result.value == Recording
    ensures m.result.Err? ==> m.result.error.message == Rejection(sm.state, Recording)
  {
    Transition(sm, Recording)
  }

  /** Stop recording (Recording or Paused to Finalizing). */
  function Stop(sm: StateMachine): (m: Moved)
    ensures m.result.Ok? <==> sm.state in {Recording, Paused, Finalizing}
    ensures m.result.Ok? ==> m.machine == StateMachine(Finalizing, None)
    ensures m.result.Err? ==> m.machine == sm
    ensures m.result.Ok? ==> m.result.value == Finalizing
    ensures m.result.Err? ==> m.result.error.message == Rejection(sm.state, Finalizing)
  {
    Transition(sm, Finalizing)
  }

  /** Finalize complete (Finalizing to Idle). */
  function FinalizeComplete(sm: StateMachine): (m: Moved)
    ensures m.result.Ok? <==> sm.state in {Idle, Selecting, Finalizing, Error}
    ensures m.result.Ok? ==> m.machine == StateMachine(Idle, None)
    ensures m.result.Err? ==> m.machine == sm
    ensures m.result.Ok? ==> m.result.value == Idle
    ensures m.result.Err? ==> m.result.error.message == Rejection(sm.state, Idle)
  {
    Transition(sm, Idle)
  }

  /** Reset from error (Error to Idle). */
  function Reset(sm: StateMachine): (m: Moved)
    ensures m.result.Ok? <==> sm.state in {Idle, Selecting, Finalizing, Error}
    ensures m.result.Ok? ==> m.machine == StateMachine(Idle, None)
    ensures m.result.Err? ==> m.machine == sm
    ensures m.result.Ok? ==> m.result.value == Idle
    ensures m.result.Err? ==> m.result.error.message == Rejection(sm.state, Idle)
  {
    Transition(sm, Idle)
  }

  /** Record an externally detected failure; bypasses the table. */
  function SetError(sm: StateMachine, e: CaptureError): (r: StateMachine)
    ensures r.state == Error && r.lastError == Some(e)
    ensures ErrorOnlyInError(r)
  {
    StateMachine(Error, Some(e))
  }

  /** The machine keeps an error on record only while it is in Error. */
  predicate ErrorOnlyInError(sm: StateMachine) {
    sm.lastError.Some? ==> sm.state == Error
  }

  /** One externally visible step: a transition request or a detected failure. */
  datatype Step = Move(to: CaptureState) | Fail(error: CaptureError)

  function Apply(sm: StateMachine, s: Step): StateMachine {
    match s
    case Move(to) => Transition(sm, to).machine
    case Fail(e) => SetError(sm, e)
  }

  function Run(sm: StateMachine, steps: seq<Step>): StateMachine
    decreases |steps|
  {
    if |steps| == 0 then sm else Run(Apply(sm, steps[0]), steps[1..])
  }

  /** The transition table and the same-state rule are exactly the accepted moves. */
  lemma ValidIsTable(from: CaptureState, to: CaptureState)
    ensures Valid(from, to) <==> (from, to) in Edges || from == to
  {
  }

  /** Every state may be moved to Error by the table itself (Error to Error as a no-op). */
  lemma ErrorReachableFromAll(sm: StateMachine)
    ensures Transition(sm, Error).result == Ok(Error)
  {
  }

  /** `set_error` works from every state, and a reset afterwards returns to a clean Idle. */
  lemma SetErrorThenReset(sm: StateMachine, e: CaptureError)
    ensures SetError(sm, e).state == Error && SetError(sm, e).lastError == Some(e)
    ensures Reset(SetError(sm, e)) == Moved(Ok(Idle), StateMachine(Idle, None))
  {
  }

  /** A transition into Error through the table keeps whatever was recorded; from Idle that is nothing. */
  lemma TableErrorKeepsRecord(sm: StateMachine)
    requires ErrorOnlyInError(sm) && sm.state == Idle
    ensures Transition(sm, Error).machine == StateMachine(Error, None)
  {
  }

  /** One step keeps the recorded-error invariant. */
  lemma ApplyKeepsInvariant(sm: StateMachine, s: Step)
    requires ErrorOnlyInError(sm)
    ensures ErrorOnlyInError(Apply(sm, s))
  {
  }

  /** Any sequence of steps keeps the recorded-error invariant. */
  lemma {:induction false} RunKeepsInvariant(sm: StateMachine, steps: seq<Step>)
    requires ErrorOnlyInError(sm)
    ensures ErrorOnlyInError(Run(sm, steps))
    decreases |steps|
  {
    if |steps| > 0 {
      ApplyKeepsInvariant(sm, steps[0]);
      RunKeepsInvariant(Apply(sm, steps[0]), steps[1..]);
    }
  }

  /** Every machine reachable from a new one records an error only while in Error. */
  lemma ReachableKeepsInvariant(steps: seq<Step>)
    ensures ErrorOnlyInError(Run(New(), steps))
  {
    RunKeepsInvariant(New(), steps);
  }

  /** Idle, Selecting, Recording, Paused, Recording, Finalizing, Idle: the full recording flow. */
  lemma FullRecordingFlow()
    ensures
      var m1 := StartSelecting(New());
      var m2 := BeginRecording(m1.machine);
      var m3 := Pause(m2.machine);
      var m4 := Resume(m3.machine);
      var m5 := Stop(m4.machine);
      var m6 := FinalizeComplete(m5.machine);
      && m1.result == Ok(Selecting) && m2.result == Ok(Recording) && m3.result == Ok(Paused)
      && m4.result == Ok(Recording) && m5.result == Ok(Finalizing) && m6.result == Ok(Idle)
  {
  }
}
