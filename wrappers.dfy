/** Option and Result, the two failure-carrying shapes used throughout the model. */
module Wrappers {

  /** A value that may be absent (Python's `Optional[...]` / `None`). */
  datatype Option<+T> = None | Some(value: T) {
    function GetOr(default: T): T {
      match this
      case Some(v) => v
      case None => default
    }
  }

  /** Either a value or the error that a raised exception would carry. */
  datatype Result<+T, +E> = Ok(value: T) | Err(error: E)
}
