/** Option and Result, used for missing values and for the error paths of the modelled code. */
module Wrappers {

  /** A value that may be absent (`null` / `undefined` in JavaScript). */
  datatype Option<+T> = None | Some(value: T)

  /** The outcome of an operation that either completes or throws. */
  datatype Result<+T, +E> = Ok(value: T) | Err(error: E)
}
