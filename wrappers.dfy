/** Optional values and success/failure results, used throughout the relay model. */
module Wrappers {

  /** A value that may be absent (Python's `None`, or a missing JSON key). */
  datatype Option<+T> = None | Some(value: T) {

    /** The present value, or `default` when absent. */
    function GetOr(default: T): T {
      match this
      case Some(v) => v
      case None => default
    }
  }

  /** Either a successful value or an error. */
  datatype Result<+R, +E> = Success(value: R) | Failure(error: E)
}
