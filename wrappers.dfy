/** Optional values and results with an error, standing for PHP's `null` and thrown exceptions. */
module Wrappers {

  /** A value that may be absent: a PHP key that is missing or holds null. */
  datatype Option<T> = None | Some(value: T) {

    /** PHP's `??` operator: the value if present, else the default. */
    function GetOr(default: T): T {
      match this
      case Some(v) => v
      case None => default
    }
  }

  /** The outcome of an operation that may throw: a value, or the exception's message. */
  datatype Result<T, E> = Success(value: T) | Failure(error: E)
}
