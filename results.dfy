/** Failure-carrying values for the model's error paths: `Option` for an absent
    value, `Result` for an operation that either returns or raises. */
module Results {

  datatype Option<+T> = None | Some(value: T)

  datatype Result<+T, +E> = Ok(value: T) | Err(error: E)
}
