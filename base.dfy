/** Option and Result values shared by every module of the model. */
module Base {

  /** A value that may be absent (JavaScript's `undefined` / missing key). */
  datatype Option<+T> = None | Some(value: T)

  /** The outcome of an operation that either returns a value or throws. */
  datatype Result<+T, +E> = Success(value: T) | Failure(error: E)
}
