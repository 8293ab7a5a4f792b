/** Failure-carrying datatypes shared by the modules of the point-of-sale model. */
module Outcomes {

  /** A value that may be absent, standing in for JavaScript's `null`/`undefined`. */
  datatype Option<+T> = None | Some(value: T)

  /** The result of an operation that either produces a value or is rejected with an error. */
  datatype Result<+T, +E> = Ok(value: T) | Err(error: E)
}
