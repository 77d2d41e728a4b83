/** Option and Result, shared by every module of the model. */
module Wrappers {

  datatype Option<+T> = None | Some(value: T)

  /** The outcome of an operation that can raise: either a value or the error it raised. */
  datatype Result<+T, +E> = Ok(value: T) | Err(error: E)
}
