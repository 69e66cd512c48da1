/** Option and Result, the failure-carrying wrappers every other module uses. */
module Wrappers {

  datatype Option<+T> = None | Some(value: T) {
    /** The value, or `default` when there is none (PHP's `??`). */
    function GetOr(default: T): T {
      match this
      case Some(v) => v
      case None => default
    }
  }

  /** The outcome of an operation that may raise one of the source's exceptions. */
  datatype Result<+T, +E> = Ok(value: T) | Err(error: E)
}
