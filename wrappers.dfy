/** Option and Result, the failure-carrying types shared by every module. */
module Wrappers {

  datatype Option<+T> = None | Some(value: T) {
    function GetOr(default: T): T {
      match this
      case Some(v) => v
      case None => default
    }
  }

  /** An operation of the source that either returns a value or raises; `error` is the exception text. */
  datatype Result<+T> = Ok(value: T) | Err(error: string)
}
