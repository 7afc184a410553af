/** Result types shared by the model: the Go code's `(value, error)` pairs and values that may be nil. */
module Base {
  datatype Option<+T> = None | Some(value: T)

  datatype Result<+T, +E> = Success(value: T) | Failure(error: E)
}
