/** Failure-carrying values shared by every part of the model. */
module Wrappers {

  /** A value that may be missing: a C# null reference, a failed parse. */
  datatype Option<+T> = None | Some(value: T) {
    /** The wrapped value, or `default` when there is none (C#'s `??`). */
    function GetOr(default: T): T {
      match this
      case Some(v) => v
      case None => default
    }
  }

  /** The outcome of an operation that may throw: its value, or the exception. */
  datatype Result<+R, +E> = Success(value: R) | Failure(error: E)
}
