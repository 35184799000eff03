/** Option and Result, the two shapes every fallible step of the model returns. */
module Wrappers {

  /** Python's `Optional[T]`: `None` or a present value. */
  datatype Option<+T> = None | Some(value: T) {
    /** The value when present, otherwise `default` (as `os.getenv(name, default)`). */
    function GetOr(default: T): T {
      match this
      case Some(v) => v
      case None => default
    }
  }

  /** The outcome of a call that may raise: a returned value or the raised error. */
  datatype Result<+T, +E> = Success(value: T) | Failure(error: E)
}
