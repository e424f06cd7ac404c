/** Failure-compatible wrappers used throughout the model. */
module Wrappers {

  /** A value that may be absent (a Go nil slice, a missing match). */
  datatype Option<+T> = None | Some(value: T)

  /** The (value, error) pair of a Go function, with exactly one side present. */
  datatype Result<+T, +E> = Success(value: T) | Failure(error: E)
}
