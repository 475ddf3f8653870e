/** Optional values (Go's nil pointers) and results (Go's (value, error) pairs). */
module Wrappers {

  /** A value that may be absent; `None` stands for a nil pointer. */
  datatype Option<+T> = None | Some(value: T)

  /** The outcome of a call that returns either a value or an error. */
  datatype Result<+R, +E> = Success(value: R) | Failure(error: E)
}
