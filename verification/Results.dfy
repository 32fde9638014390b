/** The outcome of a computation that can fail: a value, or the reason it could not be produced. */
module Results {

  datatype Result<T, E> = Ok(value: T) | Err(error: E)

}
