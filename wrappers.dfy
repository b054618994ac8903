/** Option and Result, the two failure-carrying datatypes the model uses. */
module Wrappers {

  datatype Option<+T> = None | Some(value: T)

  /** The outcome of a Python expression that either yields a value or raises. */
  datatype Result<+R, +E> = Ok(value: R) | Err(error: E)
}
