/** Optional values and results with an error, used where the Go code returns nil or an error. */
module Wrappers {

  /** A value that may be absent (Go's nil pointer / the second result of a map lookup). */
  datatype Option<+T> = None | Some(value: T)

  /** A successful value or an error (Go's `(T, error)` pair). */
  datatype Result<+T, +E> = Success(value: T) | Failure(error: E)
}
