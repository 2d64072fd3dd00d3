/** Failure-compatible wrappers used across the model: a value that may be
    absent (a Python `None` or a missing key) and the outcome of a step that
    may raise. */
module Wrappers {

  datatype Option<+T> = None | Some(value: T) {
    function GetOr(default: T): T {
      match this
      case Some(v) => v
      case None => default
    }
  }

  /** `Failure` stands for a Python exception; `error` names its kind. */
  datatype Result<+T> = Success(value: T) | Failure(error: string)
}
