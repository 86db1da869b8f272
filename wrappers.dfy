/** Option and Result values, used for Python's `None` and for calls that may raise. */
module Wrappers {

  /** A value that may be absent (Python's `None`). */
  datatype Option<+T> = None | Some(value: T)

  /** The outcome of a call that either returns a value or raises an exception
      carrying a message. */
  datatype Result<+R, +E> = Success(value: R) | Failure(error: E)
}
