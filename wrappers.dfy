/** Option and Result, the failure-carrying datatypes used across the model. */
module Wrappers {

  datatype Option<+T> = None | Some(value: T)

  /** The outcome of an operation that JavaScript would either complete or abort by throwing. */
  datatype Result<+T, +E> = Ok(value: T) | Err(error: E)
}
