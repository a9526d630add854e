/** Optional values and success/failure results, used for document fields that
    may be absent and for handler replies that may be HTTP errors. */
module Wrappers {

  /** A value that may be absent, like a missing key of a stored document. */
  datatype Option<+T> = None | Some(value: T) {

    /** The held value, or `default` when absent (Python's `dict.get(key, default)`). */
    function GetOr(default: T): T {
      match this
      case Some(v) => v
      case None => default
    }
  }

  /** Either a successful reply or the error the request was rejected with. */
  datatype Result<+R, +E> = Success(value: R) | Failure(error: E)
}
