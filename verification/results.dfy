/** Rust's `Result` and `Option`, the failure-carrying types the modelled code returns. */
module Results {

  /** `Result<T, E>`: either a value or an error. */
  datatype Result<T, E> = Ok(value: T) | Err(error: E)

  /** `Option<T>`: either a value or nothing. */
  datatype Option<T> = None | Some(value: T)
}
