/** Failure-carrying result type shared by the model. */
module Wrappers {

  /** Either a value or an error; the error path of an operation that throws. */
  datatype Result<+T, +E> = Ok(value: T) | Err(error: E)
}
