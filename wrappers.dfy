/** Option and Result, the two failure-carrying shapes the services use. */
module Wrappers {

  /** A Python value that may be None. */
  datatype Option<+T> = None | Some(value: T) {
    /** Python's `value or default` for a value whose only falsy form is None or the default itself. */
    function GetOr(default: T): (r: T)
      ensures Some? ==> r == value
      ensures None? ==> r == default
    {
      match this
      case Some(v) => v
      case None => default
    }
  }

  /** The value a Python call returns, or the exception it raises. */
  datatype Result<+T, +E> = Success(value: T) | Failure(error: E)
}
