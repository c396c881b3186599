/** Option and Result, the two failure-carrying shapes the model uses for
    absent values (`undefined`, `null`) and for schema validation errors. */
module Wrappers {

  datatype Option<+T> = None | Some(value: T) {
    function GetOr(default: T): T {
      match this
      case Some(v) => v
      case None => default
    }
  }

  datatype Result<+R, +E> = Success(value: R) | Failure(error: E)
}
