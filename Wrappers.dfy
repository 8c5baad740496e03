/** Failure-compatible wrappers used across the model: a value that may be
    missing (Java's null) and a result that may be an exception. */
module Wrappers {

  datatype Option<+T> = None | Some(value: T)

  datatype Result<+T, +E> = Ok(value: T) | Err(error: E)
}
