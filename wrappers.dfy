/** Option and Result, the two failure-carrying shapes the rest of the model uses. */
module Wrappers {

  datatype Option<+T> = None | Some(value: T)

  /** Rust's `Result<T, E>`: the value of a fallible operation or its error. */
  datatype Result<+T, +E> = Ok(value: T) | Err(error: E)
}
