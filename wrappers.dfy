/** Failure-compatible wrappers shared by the other modules. */
module Wrappers {

  /** An optional value: a JavaScript `undefined` field or an absent Python key is `None`. */
  datatype Option<+T> = None | Some(value: T) {
    function GetOr(default: T): T {
      match this
      case Some(v) => v
      case None => default
    }
  }

  /** The outcome of a computation that can raise. */
  datatype Result<+R, +E> = Ok(value: R) | Err(error: E)
}
