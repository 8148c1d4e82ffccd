/** Optional values and results carrying an error message. */
module Wrappers {

  /** A value that may be absent (Python's `X | None`). */
  datatype Option<+T> = None | Some(value: T)

  /** The outcome of a check or a construction that may raise. */
  datatype Result<+R, +E> = Success(value: R) | Failure(error: E)
}
