/**
 * What the handlers see of the RPC layer: status codes, statuses, and the
 * call's context, which is polled at checkpoints.
 */
module Rpc {
  import opened Prelude

  /** The gRPC status codes the core produces. */
  datatype Code = Unknown | InvalidArgument | NotFound | AlreadyExists | Internal | Canceled | DeadlineExceeded

  /** A gRPC error status: a code and the fixed part of its message. */
  datatype Status = Status(code: Code, message: string)

  /** What `ctx.Err()` reports at one instant. */
  datatype CtxState = Active | CtxCanceled | CtxDeadlineExceeded

  /**
   * The context as an oracle: what `ctx.Err()` reports at the n-th checkpoint
   * of a call (checkpoints are numbered from 0 in the order the handler polls).
   */
  type Context = nat -> CtxState

  /** `contextError`: the status a handler returns when its context is done, if any. */
  function ContextError(state: CtxState): (r: Option<Status>)
    ensures r.None? <==> state == Active
    ensures state == CtxCanceled ==> r == Some(Status(Canceled, "request is canceled"))
    ensures state == CtxDeadlineExceeded ==> r == Some(Status(DeadlineExceeded, "deadline is exceeded"))
  {
    match state
    case CtxCanceled => Some(Status(Canceled, "request is canceled"))
    case CtxDeadlineExceeded => Some(Status(DeadlineExceeded, "deadline is exceeded"))
    case Active => None
  }
}
