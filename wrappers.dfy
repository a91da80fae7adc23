/** Option and Result, the two failure-carrying wrappers the model uses. */
module Wrappers {

  /** A value that may be absent (Python's `Optional[...]` / `None`). */
  datatype Option<+T> = None | Some(value: T)

  /** A success value or an error (a raised exception, made explicit). */
  datatype Result<+T, +E> = Ok(value: T) | Err(error: E)
}
