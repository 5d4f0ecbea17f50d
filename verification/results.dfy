/** Failure-carrying return values shared by the cache and the flattener: the
    Python code raises exceptions, the model returns `Err` instead. */
module Results {

  datatype Option<+T> = None | Some(value: T)

  datatype Result<+T, +E> = Ok(value: T) | Err(error: E)
}
