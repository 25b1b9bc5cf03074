/** The outcome of an operation that can be refused with a coded error. */
module Results {
  datatype Result<T, E> = Ok(value: T) | Err(error: E)
}
