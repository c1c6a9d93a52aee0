/** Mapping backend failures onto the error codes shown to the user (`ipc/errors.rs`). */
module IpcErrors {
  import opened State
  import Capture

  /** Total mapping; the message is carried over unchanged. */
  function ToCaptureError(e: Capture.BackendError): (r: CaptureError)
    ensures r.message == e.msg
    ensures r.code == PermissionDenied <==> e.PermissionDenied?
    ensures r.code == PortalError <==> e.PortalError? || e.NoSourceAvailable?
    ensures r.code == Unknown <==> e.NotSupported? || e.Internal?
  {
    match e
    case PermissionDenied(msg) => CaptureError(PermissionDenied, msg)
    case PortalError(msg) => CaptureError(PortalError, msg)
    case NoSourceAvailable(msg) => CaptureError(PortalError, msg)
    case NotSupported(msg) => CaptureError(Unknown, msg)
    case Internal(msg) => CaptureError(Unknown, msg)
  }

  /** The mapping only ever yields three of the seven codes. */
  lemma MappingRange(e: Capture.BackendError)
    ensures ToCaptureError(e).code in {PermissionDenied, PortalError, Unknown}
    ensures ToCaptureError(e).code !in {InvalidConfig, EncoderUnavailable, PipelineError, IoError}
  {
  }

  /** NoSourceAvailable is not distinguished from PortalError once mapped. */
  lemma NoSourceLooksLikePortal(m: string)
    ensures ToCaptureError(Capture.NoSourceAvailable(m)) == ToCaptureError(Capture.PortalError(m))
  {
  }
}
