/** Failure-carrying result types shared by the modules of this model. */
module Wrappers {

  /** A value that may be absent, the model of Python's `None`. */
  datatype Option<+T> = None | Some(value: T)

  /** Either a value or the exception the Python code would raise instead. */
  datatype Result<+T, +E> = Success(value: T) | Failure(error: E)
}
