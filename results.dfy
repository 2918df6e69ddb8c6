/** Option and Result values for the worker's optional fields and rethrown errors. */
module Results {

  datatype Option<+T> = None | Some(value: T)

  /** Either the value an operation returned, or the error it threw. */
  datatype Result<+T, +E> = Ok(value: T) | Err(error: E)
}
