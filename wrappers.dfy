/** Failure-carrying return values: Go's `(value, error)` pairs and nil pointers. */
module Wrappers {

  /** A value that may be absent; `None` plays the role of Go's nil. */
  datatype Option<+T> = None | Some(value: T)

  /** A value or an error, as returned by a Go function `(T, error)`. */
  datatype Result<+T, +E> = Success(value: T) | Failure(error: E)
}
