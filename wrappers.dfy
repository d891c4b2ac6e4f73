/** Option and Result values standing in for Python's `None` and for raised exceptions. */
module Wrappers {

  datatype Option<+T> = None | Some(value: T)

  /** Either a value, or the message of an exception raised on the way to it. */
  datatype Result<+R> = Success(value: R) | Failure(error: string)
}
