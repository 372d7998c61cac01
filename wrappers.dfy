/** Option and Result, the failure-carrying datatypes used by the model. */
module Wrappers {

  /** A value that may be absent (a file that does not exist, a `null` result). */
  datatype Option<+T> = None | Some(value: T)

  /** A computed value, or the message of the error that was thrown instead. */
  datatype Result<+T, +E> = Ok(value: T) | Err(error: E)
}
