/** Optional values and results: Java's nullable references and the status
    exceptions the service throws become these. */
module Wrappers {

  /** A nullable field: `None` is Java's `null` (or, for a decoded payload,
      a JSON document that could not be read). */
  datatype Option<+T> = None | Some(value: T) {
    /** The value, or `default` when absent (the source's `x == null ? d : x`). */
    function GetOr(default: T): T {
      match this
      case Some(v) => v
      case None => default
    }
  }

  /** The outcome of an operation that can fail with a typed error. */
  datatype Result<+R, +E> = Success(value: R) | Failure(error: E)
}
