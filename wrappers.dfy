/** Optional values and results with an error, as used throughout the model. */
module Wrappers {

  /** A value that may be absent: a nullable database column or a missing cookie. */
  datatype Option<+T> = None | Some(value: T)

  /** The result of an operation that can raise: the value, or the error it raises. */
  datatype Result<+R, +E> = Success(value: R) | Failure(error: E)
}
