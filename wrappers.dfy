/** Option and Result values standing for Python's `None` and for raised exceptions. */
module Wrappers {

  datatype Option<+T> = None | Some(value: T) {
    /** Python's `x if x is not None else d`. */
    function GetOr(default: T): T {
      match this
      case Some(v) => v
      case None => default
    }
  }

  /** An operation that either produces a value or raises the error it names. */
  datatype Result<+R, +E> = Success(value: R) | Failure(error: E)

  /** A check that either passes or raises. */
  datatype Outcome<+E> = Pass | Fail(error: E)
}
