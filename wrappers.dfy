/** Small failure-carrying datatypes shared by the other modules. */
module Wrappers {

  /** A value that may be absent: Go's nil pointer versus a pointer to a value. */
  datatype Option<+T> = None | Some(value: T)

  /** The result of an operation that either yields a value or fails with an error. */
  datatype Result<+T, +E> = Ok(value: T) | Err(error: E)

  /** The result of a check that yields nothing on success: Go's `error` that may be nil. */
  datatype Outcome<+E> = Pass | Fail(error: E)
}
