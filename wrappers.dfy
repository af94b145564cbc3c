/** Failure-carrying values shared by every module of the model. */
module Wrappers {

  /** A value that may be missing (Python's `None`). */
  datatype Option<+T> = None | Some(value: T) {
    function GetOr(default: T): T {
      match this
      case Some(v) => v
      case None => default
    }
  }

  /** The outcome of an operation that can raise. */
  datatype Result<+R, +E> = Ok(value: R) | Err(error: E)

  function Max(a: int, b: int): int { if a < b then b else a }

  function Min(a: int, b: int): int { if a < b then a else b }
}
