/** Option, Result and Outcome: the model's stand-ins for Python's None, return values and raised exceptions. */
module Wrappers {

  datatype Option<+T> = None | Some(value: T) {
    /** `x if x is not None else default` */
    function GetOr(default: T): T {
      match this
      case Some(v) => v
      case None => default
    }
  }

  /** A value, or the exception that was raised instead. */
  datatype Result<+R, +E> = Success(value: R) | Failure(error: E)

  /** Normal completion (a procedure returning None), or the exception that was raised. */
  datatype Outcome<+E> = Pass | Fail(error: E)
}
