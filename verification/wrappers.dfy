/** Failure-carrying results shared by the modules of the model. */
module Wrappers {

  /** A value that may be absent: a JavaScript `null`/`undefined` or a failed lookup. */
  datatype Option<+T> = None | Some(value: T)

  /** The outcome of an operation that computes a value or reports an error message. */
  datatype Result<+T> = Ok(value: T) | Err(error: string)

  /** The outcome of an operation that only succeeds or fails with a message. */
  datatype Outcome = Pass | Fail(error: string)
}
