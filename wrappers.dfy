/** Option and Result values for the "not found" and "raises" outcomes of the extractor. */
module Wrappers {

  datatype Option<+T> = None | Some(value: T)

  datatype Result<+T, +E> = Ok(value: T) | Err(error: E)
}
