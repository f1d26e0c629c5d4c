/** Optional values and error results shared by every module of the model. */
module Outcomes {

  /** A value that may be missing: a Python `None`, an absent dictionary key, a Go `nil`. */
  datatype Option<+T> = None | Some(value: T) {
    function GetOr(default: T): T {
      match this
      case Some(v) => v
      case None => default
    }
  }

  /** The outcome of an operation that can fail: a Go `(value, error)` pair or a raised Python exception. */
  datatype Result<+T, +E> = Ok(value: T) | Err(error: E)
}
