/** Failure-carrying values used in place of the Python exceptions. */
module Outcomes {

  datatype Option<+T> = None | Some(value: T)

  /** A value, or the error the Python code raises instead of returning one. */
  datatype Result<+T, +E> = Ok(value: T) | Err(error: E)

  /** A call that returns `None` on success, or the error it raises. */
  datatype Outcome<+E> = Pass | Fail(error: E)
}
