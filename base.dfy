/** Option and result datatypes shared by every module of the model. */
module Base {

  /** A value that may be absent: JavaScript's `undefined` / `null`. */
  datatype Option<+T> = None | Some(value: T)

  /** The outcome of an operation that may throw: the value, or the error it throws. */
  datatype Result<+T, +E> = Success(value: T) | Failure(error: E)
}
