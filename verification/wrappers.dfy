/** Failure-compatible wrappers shared by the whole model. */
module Wrappers {

  /** An optional value: Python's `None` or a value. */
  datatype Option<+T> = None | Some(value: T)

  /** Either a value or the message of an exception that escaped the call. */
  datatype Result<+R, +E> = Success(value: R) | Failure(error: E)
}
