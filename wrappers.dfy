/** Failure-carrying result types shared by the model. */
module Wrappers {

  /** A value that may be absent (JavaScript's `undefined` where a lookup finds nothing). */
  datatype Option<+T> = None | Some(value: T) {
    function GetOr(default: T): T {
      match this
      case Some(v) => v
      case None => default
    }
  }

  /** A value, or the exception that was thrown instead of returning it. */
  datatype Result<+T, +E> = Ok(value: T) | Err(error: E)

  /** An operation that returns nothing, or the exception it threw. */
  datatype Outcome<+E> = Pass | Fail(error: E)
}
