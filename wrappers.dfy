/** Optional values and results with an error list, used throughout the model. */
module Wrappers {

  /** A value that may be absent (`undefined` in the source). */
  datatype Option<+T> = None | Some(value: T) {
    function GetOr(default: T): T {
      match this
      case Some(v) => v
      case None => default
    }
  }

  /** The outcome of a parse: the parsed value, or what was wrong with the input. */
  datatype Result<+R, +E> = Success(value: R) | Failure(error: E)
}
