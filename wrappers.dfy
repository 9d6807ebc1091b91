/** Optional values and the outcome of an operation that may throw. */
module Wrappers {

  /** A JavaScript value that may be `undefined`. */
  datatype Option<+T> = None | Some(value: T)

  /** A resolved or rejected promise: the value, or the error thrown. */
  datatype Result<+T, +E> = Success(value: T) | Failure(error: E)
}
