/** Optional values and success/failure results shared by every module of the model. */
module Wrappers {

  /** A value that may be missing: Python's `None`, JavaScript's `null`/`undefined`,
      or a JSON key that the request did not carry. */
  datatype Option<+T> = None | Some(value: T) {
    function GetOr(default: T): (v: T)
      ensures Some? ==> v == value
      ensures None? ==> v == default
    {
      match this
      case Some(x) => x
      case None => default
    }
  }

  /** The outcome of a validation step: a value, or an error description. */
  datatype Result<+R, +E> = Success(value: R) | Failure(error: E)
}
