/** Failure-compatible wrappers shared by every module of the model. */
module Wrappers {

  /** A value that may be absent: a missing map entry, a failed parse. */
  datatype Option<+T> = None | Some(value: T)

  /** The outcome of an operation that the source can abandon with an error. */
  datatype Result<+T, +E> = Ok(value: T) | Err(error: E)
}
