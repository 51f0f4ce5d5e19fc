/** Option and Result, used for Ruby's nil and for the exceptions the token code lets escape. */
module Wrappers {

  datatype Option<+T> = None | Some(value: T) {
    /** Ruby's `x || default`: the value when one is given, the default otherwise. */
    function GetOr(default: T): T {
      match this
      case Some(v) => v
      case None => default
    }
  }

  datatype Result<+R, +E> = Success(value: R) | Failure(error: E)
}
