/** Exceptions as values, and the result of an operation that may throw one. */
module Wrappers {

  /** A .NET exception: its type and its message. */
  datatype Exception =
    | InvalidOperationException(message: string)
    | OtherException(typeName: string, message: string)

  /** What a call produces: a value, or the exception it throws. */
  datatype Result<+T> = Ok(value: T) | Err(error: Exception)
}
