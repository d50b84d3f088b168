/** Optional values and success-or-failure results, shared by the other modules. */
module Wrappers {

  /** A value that may be absent (a JSON key that is missing, an unset variable). */
  datatype Option<+T> = None | Some(value: T) {
    function GetOr(default: T): T {
      match this
      case Some(v) => v
      case None => default
    }
  }

  /** The outcome of an operation that can fail with an error value. */
  datatype Result<+T, +E> = Success(value: T) | Failure(error: E)
}
