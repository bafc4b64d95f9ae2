/** Failure-compatible wrappers used throughout the model: an optional value
    (a Go pointer that may be nil, a map lookup that may miss) and a result
    that is either a value or an error (Go's `(T, error)` return pair). */
module Wrappers {

  /** An optional value; `None` plays the part of Go's nil pointer. */
  datatype Option<+T> = None | Some(value: T)

  /** Either a value or an error; `Failure` plays the part of a non-nil Go `error`. */
  datatype Result<+T, +E> = Success(value: T) | Failure(error: E)
}
