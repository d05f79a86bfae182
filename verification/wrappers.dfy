/** Option and Result, the two failure-carrying datatypes the model uses. */
module Wrappers {

  /** A value that may be missing (the chat platform's nullable channel topic). */
  datatype Option<+T> = None | Some(value: T)

  /** Either a value or the reason it could not be produced (a thrown error). */
  datatype Result<+T, +E> = Ok(value: T) | Err(error: E)
}
