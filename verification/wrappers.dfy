/** Option and Result, the failure-carrying values used throughout the model. */
module Wrappers {

  datatype Option<+T> = None | Some(value: T) {
    function GetOr(default: T): T {
      match this
      case Some(v) => v
      case None => default
    }
  }

  /** A JavaScript `throw` is modelled as `Failure` with the error message. */
  datatype Result<+T> = Success(value: T) | Failure(error: string)
}
