/** The two outcomes the .NET code produces besides a plain value: a
    reference that may be null, and a call that may throw. */
module Wrappers {

  /** A value or .NET `null`. */
  datatype Option<+T> = None | Some(value: T) {

    /** C#'s `??` operator: the value, or `fallback` for null. */
    function GetOr(fallback: T): T {
      if Some? then value else fallback
    }
  }

  /** The value a call returns, or the exception it throws instead. */
  datatype Result<+R, +E> = Success(value: R) | Failure(error: E)
}
