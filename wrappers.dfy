/** Option and Result values for the operations that can fail. */
module Wrappers {

  datatype Option<+T> = None | Some(value: T)

  datatype Result<+R, +E> = Ok(value: R) | Err(error: E)

  /** Outcome of an operation that yields no value. */
  datatype Outcome<+E> = Pass | Fail(error: E)
}
