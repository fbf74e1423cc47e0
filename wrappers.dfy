/** Option and Result values used across the model in place of Python's `None` and raised exceptions. */
module Wrappers {

  datatype Option<T> = None | Some(value: T)

  /** `Err` carries the text of the exception the source raises. */
  datatype Result<T> = Ok(value: T) | Err(error: string)
}
