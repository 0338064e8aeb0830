/** Option and Result, used for PHP's `false`/absent values and for caught exceptions. */
module Wrappers {

  datatype Option<+T> = None | Some(value: T)

  /** A provider call either returns its records or throws an exception carrying a message. */
  datatype Result<+R, +E> = Success(value: R) | Failure(error: E)
}
