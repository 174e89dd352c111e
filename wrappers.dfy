/** Failure-carrying results shared by the modules of the model. */
module Wrappers {

  datatype Option<+T> = None | Some(value: T)

  /** A value or the exception the Python code would raise instead. */
  datatype Result<+T, +E> = Ok(value: T) | Err(error: E)

  /** The outcome of a statement that returns nothing but may raise. */
  datatype Outcome<+E> = Pass | Fail(error: E)
}
