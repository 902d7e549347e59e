/** The outcome of an operation that may raise an error instead of returning a value. */
module Wrappers {

  datatype Result<+T, +E> = Success(value: T) | Failure(error: E)

}
