/** Option and Result datatypes shared by the other modules. */
module Wrappers {

  /** A value that may be absent: Python's `Optional[T]`, where `None` is the missing case. */
  datatype Option<+T> = None | Some(value: T)

  /** The outcome of an operation that may raise: `Err` carries the exception that escapes. */
  datatype Result<+T, +E> = Ok(value: T) | Err(error: E)
}
