/** Failure-carrying datatypes shared by the rest of the model. */
module Wrappers {

  /** A value that may be absent; stands for Python's `None`. */
  datatype Option<+T> = None | Some(value: T)

  /** The outcome of an operation that may raise. */
  datatype Result<+T, +E> = Ok(value: T) | Err(error: E)
}
