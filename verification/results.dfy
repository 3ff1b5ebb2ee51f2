/** Outcome types for the operations that can fail: Python exceptions and HTTP
    errors become values. */
module Results {

  datatype Option<+T> = None | Some(value: T)

  datatype Result<+T, +E> = Ok(value: T) | Err(error: E)
}
