/** Option and Result, used for JavaScript's `null` and for thrown errors. */
module Wrappers {

  datatype Option<+T> = None | Some(value: T)

  /** A computation that either produced a value or threw an error carrying a message. */
  datatype Result<+T, +E> = Ok(value: T) | Err(error: E)
}
