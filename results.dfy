/** The outcome of an operation that can throw: either its value or the error it throws. */
module Results {

  datatype Result<+T, +E> = Success(value: T) | Failure(error: E)
}
