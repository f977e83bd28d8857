/** Success/failure results, used where the Python code raises an exception. */
module Wrappers {

  /** Either the value an operation returns, or the error it raises. */
  datatype Result<+T, +E> = Success(value: T) | Failure(error: E)
}
