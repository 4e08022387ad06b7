/** Failure-compatible wrappers used across the model. */
module Wrappers {

  /** A value that may be missing: `undefined` or `null` in the source. */
  datatype Option<+T> = None | Some(value: T)

  /** The outcome of a call that may throw: the returned value or the thrown error. */
  datatype Result<+T, +E> = Success(value: T) | Failure(error: E)
}
