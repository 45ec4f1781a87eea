/** Option and Result: the model's stand-ins for an empty or failed reactive value. */
module Results {

  /** A value that may be absent, as an empty `Mono` is. */
  datatype Option<+T> = None | Some(value: T)

  /** Either a value or the error that replaced it, as a `Mono` that errors. */
  datatype Result<+T, +E> = Success(value: T) | Failure(error: E)
}
