/** Optional values and results with an error, standing for Python's `None` and raised exceptions. */
module Wrappers {

  datatype Option<+T> = None | Some(value: T) {
    function GetOr(default: T): T {
      match this
      case Some(v) => v
      case None => default
    }
  }

  /** `Err(message)` stands for an exception whose text is `message`. */
  datatype Result<+T, +E> = Ok(value: T) | Err(error: E)
}
