/** `Option` and `Result`, used by every module of the model. */
module Wrappers {

  datatype Option<+T> = None | Some(value: T)

  /** The outcome of an operation that may raise: `Err` stands for a Python exception. */
  datatype Result<+T, +E> = Ok(value: T) | Err(error: E)
}
