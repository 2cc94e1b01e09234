/** Option and Result: a Java reference that may be null, and an operation
    that either returns a value or throws. */
module Wrappers {

  /** `None` stands for Java's `null`. */
  datatype Option<+T> = None | Some(value: T) {
    function GetOr(default: T): T {
      match this
      case Some(v) => v
      case None => default
    }
  }

  /** `Failure` stands for an exception that propagates to the caller. */
  datatype Result<+R, +E> = Success(value: R) | Failure(error: E)
}
