/** Option and Result, used for the Python operations that may raise. */
module Wrappers {

  /** A value, or Python's `None` / an exception that was caught. */
  datatype Option<+T> = None | Some(value: T)

  /** The outcome of a call into the agent: a value, or the exception it raised. */
  datatype Result<+T, +E> = Success(value: T) | Failure(error: E)
}
