/** Optional values and results that carry either a value or an error. */
module Results {

  datatype Option<T> = None | Some(value: T)

  /** The outcome of an operation that in the source may throw. */
  datatype Result<T, E> = Ok(value: T) | Err(error: E)
}
