/** Option and Result values shared by every model in this project. */
module Wrappers {

  datatype Option<+T> = None | Some(value: T) {
    function GetOr(default: T): T {
      match this
      case Some(v) => v
      case None => default
    }
  }

  /** The error path of a Go `(value, error)` pair or a Rust `Result`. */
  datatype Result<+T, +E> = Ok(value: T) | Err(error: E)
}
