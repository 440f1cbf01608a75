/** Option and Result, the failure-carrying wrappers the rest of the model returns. */
module Wrappers {

  datatype Option<+T> = None | Some(value: T)

  /** The value-or-error pair that the Go functions return as `(T, error)`. */
  datatype Result<+T, +E> = Success(value: T) | Failure(error: E)
}
