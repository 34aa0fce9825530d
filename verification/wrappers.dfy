/** Optional values and success-or-failure results, the model's stand-ins
    for Go's nil pointers and for calls that either return or panic. */
module Wrappers {

  /** A value that may be absent (a nil pointer or nil interface in Go). */
  datatype Option<+T> = None | Some(value: T)

  /** The outcome of an operation that either completes with a value or
      aborts with an error value. */
  datatype Result<+T, +E> = Success(value: T) | Failure(error: E)
}
