/** Failure-carrying values shared by the other modules. */
module Wrappers {

  /** An optional value: Python's `None` or a present value. */
  datatype Option<+T> = None | Some(value: T) {
    function GetOr(default: T): T {
      match this
      case Some(v) => v
      case None => default
    }
  }

  /** The value a call returns, or the exception it raises. */
  datatype Result<+R, +E> = Success(value: R) | Failure(error: E)
}
