/** Option and Result: PHP's nullable arguments and thrown exceptions, as values. */
module Wrappers {

  /** A PHP argument that may be `null`. */
  datatype Option<+T> = None | Some(value: T)

  /** The outcome of a call that either returns a value or throws. */
  datatype Result<+R, +E> = Success(value: R) | Failure(error: E)
}
