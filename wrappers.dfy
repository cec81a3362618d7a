/** Optional values, results with an error, and outcomes of a remote call. */
module Wrappers {

  /** A value that may be absent: JavaScript's `undefined`/`null` next to a present value. */
  datatype Option<+T> = None | Some(value: T) {

    /** The value, or `default` when absent: JavaScript's `x ?? default`. */
    function GetOr(default: T): T {
      match this
      case Some(v) => v
      case None => default
    }
  }

  /** A computed value or the error that prevented it (a thrown exception). */
  datatype Result<+T, +E> = Success(value: T) | Failure(error: E)

  /** The outcome of a request that returns no value: it went through, or it failed with an error. */
  datatype Outcome<+E> = Ok | Err(error: E)
}
