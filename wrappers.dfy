/** Option and Result, used for PHP's `null` and for the dispatcher's usage errors. */
module Wrappers {

  /** A value that may be absent; `None` plays the part of PHP's `null`. */
  datatype Option<+T> = None | Some(value: T)

  /** Either a value or an error. */
  datatype Result<+R, +E> = Success(value: R) | Failure(error: E)
}
