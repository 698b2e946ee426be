/** Option and Result values used across the model in place of `null`/`undefined` and thrown errors. */
module Wrappers {

  datatype Option<+T> = None | Some(value: T) {
    function GetOr(default: T): T
    {
      match this
      case Some(v) => v
      case None => default
    }
  }

  /** A call that either returns a value or throws an `Error` carrying a message. */
  datatype Result<+R, +E> = Success(value: R) | Failure(error: E)
}
