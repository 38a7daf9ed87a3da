/** Option and Result, the two failure-carrying shapes the model uses. */
module Wrappers {

  /** A value that may be missing: Python's `Optional[T]` (None or a value). */
  datatype Option<+T> = None | Some(value: T)

  /** Either a normal return value or the exception that was raised instead. */
  datatype Result<+T, +E> = Success(value: T) | Failure(error: E)
}
