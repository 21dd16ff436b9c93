/** Option and Result values shared by the other modules. */
module Wrappers {

  datatype Option<+T> = None | Some(value: T)

  /** The value a Python call returns, or the text of the exception it raises. */
  datatype Result<+T, +E> = Ok(value: T) | Err(error: E)
}
