/** Option and Result, the two failure-carrying wrappers the model uses. */
module Wrappers {

  /** A value that may be missing (PHP's null, an absent key). */
  datatype Option<+T> = None | Some(value: T)

  /** The value of a call that either returns or throws an exception. */
  datatype Result<+T, +E> = Ok(value: T) | Err(error: E)
}
