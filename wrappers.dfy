/** Option and Result values used for absent configuration and for failed calls. */
module Wrappers {

  datatype Option<+T> = None | Some(value: T)

  /** A call either succeeds with a value or fails with an error (a raised exception). */
  datatype Result<+T, +E> = Success(value: T) | Failure(error: E)
}
