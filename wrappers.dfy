/** Option and Result, shared by the C-binding and the Python models. */
module Wrappers {

  datatype Option<+T> = None | Some(value: T)

  /** The outcome of a step that either yields a value or raises/returns an error. */
  datatype Result<+T, +E> = Ok(value: T) | Err(error: E)
}
