/** Option and Result values used across the model for the source's
    `undefined`/`null` fields and for operations that throw. */
module Wrappers {

  datatype Option<+T> = None | Some(value: T) {
    function GetOr(default: T): T {
      match this
      case Some(v) => v
      case None => default
    }
  }

  /** A thrown error is modelled by its message. */
  datatype Result<+T> = Ok(value: T) | Err(msg: string)
}
