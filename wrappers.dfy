/** Failure-carrying values used by every module: Python's `None` and its raised exceptions. */
module Wrappers {

  /** A value or Python's `None`. */
  datatype Option<+T> = None | Some(value: T)

  /** A computed value, or the exception the Python code raises instead. */
  datatype Result<+T, +E> = Ok(value: T) | Err(error: E)

  /** A check that passes, or the exception it raises. */
  datatype Outcome<+E> = Pass | Fail(error: E)
}
