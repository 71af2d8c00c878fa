/** Optional values and results with an error, used for absent fields,
    missing configuration and operations that raise. */
module Wrappers {

  datatype Option<+T> = None | Some(value: T) {

    /** The value if present, otherwise `default` (Python's `dict.get(key, default)`). */
    function GetOr(default: T): T {
      match this
      case Some(v) => v
      case None => default
    }
  }

  /** The outcome of an operation that may raise: a value, or the text of the exception. */
  datatype Result<+T, +E> = Success(value: T) | Failure(error: E)
}
