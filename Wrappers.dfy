/** The outcome of an operation that can raise: a value, or the error raised. */
module Wrappers {

  datatype Result<+R, +E> = Success(value: R) | Failure(error: E)
}
