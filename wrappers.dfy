/** Success and failure values for operations that throw in the original code. */
module Wrappers {
  datatype Result<+T, +E> = Ok(value: T) | Err(error: E)
}
