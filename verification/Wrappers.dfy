/** Optional values and success/failure results used across the model. */
module Wrappers {

  /** A value that may be absent, such as a key missing from the saved file. */
  datatype Option<+T> = None | Some(value: T) {

    /** The value if present, otherwise `default` (Python's `dict.get(key, default)`). */
    function GetOr(default: T): (r: T)
      ensures Some? ==> r == value
      ensures None? ==> r == default
    {
      match this
      case Some(v) => v
      case None => default
    }
  }

  /** The outcome of an operation that the source may reject. */
  datatype Result<+T, +E> = Success(value: T) | Failure(error: E)
}
