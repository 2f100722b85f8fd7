/** The Option and Result datatypes shared by every module of the model. */
module Wrappers {

  /** An optional value; `None` stands for Python's `None`. */
  datatype Option<+T> = None | Some(value: T)

  /** A result that is either a value or the exception the Python code raises. */
  datatype Result<+T, +E> = Ok(value: T) | Err(error: E)
}
