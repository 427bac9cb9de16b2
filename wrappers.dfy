/** Optional values: `undefined`/`null` in the source become `None`. */
module Wrappers {

  datatype Option<+T> = None | Some(value: T) {
    function GetOr(default: T): T {
      match this
      case Some(v) => v
      case None => default
    }
  }

  /** A value, or the exception the source would throw. */
  datatype Result<+T, +E> = Success(value: T) | Failure(error: E)
}
