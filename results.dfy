/** Option and Result, the two wrappers the model uses for absent values and raised exceptions. */
module Results {

  datatype Option<+T> = None | Some(value: T)

  /** A Python call either returns a value or raises an exception. */
  datatype Result<+T, +E> = Ok(value: T) | Err(error: E)
}
