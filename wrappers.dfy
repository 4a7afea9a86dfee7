/** Option and Result, the two failure-carrying datatypes the rest of the model uses. */
module Wrappers {

  datatype Option<+T> = None | Some(value: T)

  /** The outcome of an operation that can fail with an error value instead of raising. */
  datatype Result<+R, +E> = Ok(value: R) | Err(error: E)
}
