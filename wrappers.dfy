/** Results of operations that may raise: the Python exceptions of the model become Failure / Fail values. */
module Wrappers {

  datatype Option<+T> = None | Some(value: T)

  /** A value, or the error an operation raised. */
  datatype Result<+R, +E> = Success(value: R) | Failure(error: E)

  /** Completion of an operation that returns nothing (Python's `-> None`), or the error it raised. */
  datatype Outcome<+E> = Pass | Fail(error: E)
}
