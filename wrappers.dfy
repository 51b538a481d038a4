/** Option and Result, the two failure-compatible wrappers used throughout the model. */
module Wrappers {

  /** A value that may be absent. For JavaScript values, `None` stands for `undefined` (or `null`). */
  datatype Option<+T> = None | Some(value: T) {
    function GetOr(default: T): T {
      match this
      case Some(v) => v
      case None => default
    }
  }

  /** The outcome of a step that can throw: the value, or the error's message. */
  datatype Result<+R, +E> = Success(value: R) | Failure(error: E)
}
