/** Option and Result, the two failure-carrying shapes the rest of the model uses. */
module Wrappers {

  /** Python's `None` / a present value. */
  datatype Option<+T> = None | Some(value: T) {
    function GetOr(default: T): T {
      match this
      case Some(v) => v
      case None => default
    }
  }

  /** A normal return or a raised exception. */
  datatype Result<+R, +E> = Success(value: R) | Failure(error: E)
}
