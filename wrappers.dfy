/** Optional values and results with an error, used throughout the model. */
module Wrappers {

  /** A value that may be absent (JavaScript's `undefined`). */
  datatype Option<+T> = None | Some(value: T)

  /** The value of an operation that may fail with an error. */
  datatype Result<+T, +E> = Success(value: T) | Failure(error: E)
}
