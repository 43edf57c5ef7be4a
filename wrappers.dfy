/** Optional values and failure-carrying results: Java's nullable references,
    Optional<T>, and methods that either return or throw. */
module Wrappers {

  /** A nullable reference or an Optional<T>. */
  datatype Option<+T> = None | Some(value: T) {
    function GetOr(default: T): T {
      match this
      case Some(v) => v
      case None => default
    }
  }

  /** A call that either returns a value or throws the error `error`. */
  datatype Result<+T, +E> = Success(value: T) | Failure(error: E)

  /** A void call that either returns normally or throws. */
  datatype Outcome<+E> = Pass | Fail(error: E)
}
