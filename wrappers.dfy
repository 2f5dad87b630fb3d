/** Failure-carrying values shared by the model: an optional value, the result
    of a call that may throw, and the outcome of a call that returns nothing. */
module Wrappers {

  /** A value that may be absent (JavaScript `undefined` or `null`). */
  datatype Option<+T> = None | Some(value: T) {
    /** The value, or `default` when absent (the source's `x || default` on a present value). */
    function GetOr(default: T): T {
      match this
      case Some(v) => v
      case None => default
    }
  }

  /** The value of an awaited call, or the message of the error it threw. */
  datatype Result<+R> = Success(value: R) | Failure(error: string)

  /** The completion of an awaited call that yields nothing, or the message of its error. */
  datatype Outcome = Pass | Fail(error: string)
}
