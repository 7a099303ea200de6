/** Optional values and results with an error, the two wrappers the configuration model needs. */
module Wrappers {

  /** An absent or present value (Rust's `Option`). */
  datatype Option<+T> = None | Some(value: T) {

    /** The present value, or `default` when absent (Rust's `unwrap_or`). */
    function GetOr(default: T): T {
      match this
      case Some(v) => v
      case None => default
    }
  }

  /** A value or the reason it could not be produced. */
  datatype Result<+R, +E> = Success(value: R) | Failure(error: E)
}
