/** Option and Result, the two wrappers the rest of the model uses for JavaScript's
    optional values (null/undefined) and for operations that either resolve with a value
    or reject with an error. */
module Wrappers {

  datatype Option<+T> = None | Some(value: T) {

    /** The wrapped value, or `default` when there is none. */
    function GetOr(default: T): T {
      match this
      case Some(v) => v
      case None => default
    }
  }

  /** The settled state of an awaited promise: resolved with `value` or rejected with `error`. */
  datatype Result<+R, +E> = Success(value: R) | Failure(error: E)
}
