/** Option and Result values used where the Python code returns None or raises. */
module Wrappers {

  datatype Option<+T> = None | Some(value: T) {
    function GetOr(default: T): T {
      match this
      case Some(v) => v
      case None => default
    }
  }

  /** `Err` carries the message of the exception the Python code would raise. */
  datatype Result<+T> = Ok(value: T) | Err(error: string)
}
