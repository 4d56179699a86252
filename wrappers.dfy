/** Failure-carrying datatypes shared by the model. */
module Wrappers {

  /** A value that may be absent; `None` stands for a nil slice or pointer. */
  datatype Option<+T> = None | Some(value: T)

  /** The outcome of a fallible operation that returns a value or an error. */
  datatype Result<+T, +E> = Ok(value: T) | Err(error: E)
}
