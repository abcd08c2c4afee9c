/** Option and Result values used for the optional fields of the io_models
    and for the errors the services throw. */
module Wrappers {

  datatype Option<+T> = None | Some(value: T) {
    function GetOr(default: T): T {
      match this
      case Some(v) => v
      case None => default
    }
  }

  /** A value or the error that the source would have thrown instead. */
  datatype Result<+R, +E> = Ok(value: R) | Err(error: E)
}
