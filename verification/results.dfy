/** Failure-carrying values used across the model: a thrown exception in the
    script becomes an `Err`, an absent value a `None`. */
module Results {

  datatype Option<+T> = None | Some(value: T)

  datatype Result<+T, +E> = Ok(value: T) | Err(error: E)
}
