/** Option and Result values for missing dictionary keys and raised exceptions. */
module Wrappers {

  /** A dictionary key that may be absent. */
  datatype Option<+T> = None | Some(value: T) {
    /** The value under the key, or `default` when the key is missing (Python's `dict.get`). */
    function GetOr(default: T): T {
      match this
      case Some(v) => v
      case None => default
    }
  }

  /** The outcome of a step that may raise. */
  datatype Result<+T, +E> = Ok(value: T) | Err(error: E)
}
