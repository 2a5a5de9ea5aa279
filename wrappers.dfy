/** Option and Result, the failure-carrying values used throughout the model. */
module Wrappers {

  datatype Option<+T> = None | Some(value: T)

  /** `Err` carries the name of the Python exception the source raises. */
  datatype Result<+T> = Ok(value: T) | Err(error: string)
}
