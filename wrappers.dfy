/** Failure-compatible wrappers used for the error returns of the Go code. */
module Wrappers {

  /** A value that may be absent (a Go `error` that may be nil, a decode that may fail). */
  datatype Option<+T> = None | Some(value: T)

  /** The outcome of an operation that either yields a value or reports why it failed. */
  datatype Result<+R, +E> = Success(value: R) | Failure(error: E)
}
