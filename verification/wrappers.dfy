/** Failure-carrying datatypes used across the model. */
module Wrappers {

  /** An optional value: pandas' missing value (NaN) is `None`. */
  datatype Option<+T> = None | Some(value: T)

  /** The outcome of a computation that may raise. */
  datatype Result<+T, +E> = Ok(value: T) | Err(error: E)
}
