/**
 * The capture backend vocabulary (`capture/mod.rs`): the error taxonomy and
 * its display form, the values exchanged with a backend, and the stub
 * backend of platforms without an implementation.
 */
module Capture {
  import opened Wrappers
  import opened Ints
  import opened Config

  /** The five backend failure kinds; each carries a human-readable message. */
  datatype BackendError =
    | PermissionDenied(msg: string)
    | PortalError(msg: string)
    | NoSourceAvailable(msg: string)
    | NotSupported(msg: string)
    | Internal(msg: string)

  datatype SelectionResult = SelectionResult(
    nodeId: u32,
    streamFd: Option<i32>,
    width: Option<u32>,
    height: Option<u32>)

  datatype ScreenshotResult = ScreenshotResult(path: string, width: u32, height: u32)

  /** `duration_ms` is wall-clock time and enters the model as an opaque natural. */
  datatype RecordingResult = RecordingResult(path: string, durationMs: nat, width: u32, height: u32)

  const PERMISSION_PREFIX := "Permission denied: "
  const PORTAL_PREFIX := "Portal error: "
  const NO_SOURCE_PREFIX := "No source available: "
  const NOT_SUPPORTED_PREFIX := "Not supported: "
  const INTERNAL_PREFIX := "Internal error: "

  function Prefix(e: BackendError): string {
    match e
    case PermissionDenied(_) => PERMISSION_PREFIX
    case PortalError(_) => PORTAL_PREFIX
    case NoSourceAvailable(_) => NO_SOURCE_PREFIX
    case NotSupported(_) => NOT_SUPPORTED_PREFIX
    case Internal(_) => INTERNAL_PREFIX
  }

  /** The `Display` rendering: a fixed prefix per variant followed by the message. */
  function Display(e: BackendError): (s: string)
    ensures |s| == |Prefix(e)| + |e.msg|
    ensures s[..|Prefix(e)|] == Prefix(e) && s[|Prefix(e)|..] == e.msg
  {
    Prefix(e) + e.msg
  }

  predicate StartsWith(s: string, p: string) {
    |p| <= |s| && s[..|p|] == p
  }

  /** Reads a displayed error back: the inverse of `Display`. */
  function ParseDisplay(s: string): Option<BackendError> {
    if StartsWith(s, PERMISSION_PREFIX) then Some(PermissionDenied(s[|PERMISSION_PREFIX|..]))
    else if StartsWith(s, PORTAL_PREFIX) then Some(PortalError(s[|PORTAL_PREFIX|..]))
    else if StartsWith(s, NO_SOURCE_PREFIX) then Some(NoSourceAvailable(s[|NO_SOURCE_PREFIX|..]))
    else if StartsWith(s, NOT_SUPPORTED_PREFIX) then Some(NotSupported(s[|NOT_SUPPORTED_PREFIX|..]))
    else if StartsWith(s, INTERNAL_PREFIX) then Some(Internal(s[|INTERNAL_PREFIX|..]))
    else None
  }

  /** The variant and the message can both be recovered from the display text. */
  lemma DisplayRoundTrip(e: BackendError)
    ensures ParseDisplay(Display(e)) == Some(e)
  {
    var s := Display(e);
    var p := Prefix(e);
    assert s[..|p|] == p;
    assert forall k :: 0 <= k < |p| ==> s[k] == p[k] by {
      forall k | 0 <= k < |p| ensures s[k] == p[k] {
        assert s[..|p|][k] == s[k];
      }
    }
    match e
    case PermissionDenied(m) =>
    case PortalError(m) =>
      assert s[1] == 'o' != PERMISSION_PREFIX[1];
    case NoSourceAvailable(m) =>
      assert s[0] == 'N';
    case NotSupported(m) =>
      assert s[0] == 'N' && s[2] == 't' != NO_SOURCE_PREFIX[2];
    case Internal(m) =>
      assert s[0] == 'I';
  }

  /** Distinct errors never display alike. */
  lemma DisplayInjective(e1: BackendError, e2: BackendError)
    requires Display(e1) == Display(e2)
    ensures e1 == e2
  {
    DisplayRoundTrip(e1);
    DisplayRoundTrip(e2);
  }

  /** The stub backend's selection: every request fails with NotSupported. */
  function StubRequestSelection(config: CaptureConfig): (r: Result<SelectionResult, BackendError>)
    ensures r.Err? && r.error.NotSupported?
  {
    Err(NotSupported("Capture not implemented for this platform"))
  }

  /** The stub backend's cancellation: always succeeds. */
  function StubCancelSelection(): (r: Result<(), BackendError>)
    ensures r.Ok?
  {
    Ok(())
  }
}
