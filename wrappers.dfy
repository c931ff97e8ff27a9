/** Option and Result, shared by the promise engine and the symbol registry. */
module Wrappers {

  datatype Option<+T> = None | Some(value: T)

  /** The outcome of a call that may throw: its value, or the thrown error. */
  datatype Result<+T, +E> = Ok(value: T) | Err(error: E)
}
