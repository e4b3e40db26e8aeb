/** Rust's `Result` and `Option`, as the order book and the market maker return them. */
module Results {

  datatype Result<+T, +E> = Ok(value: T) | Err(error: E)

  datatype Option<+T> = None | Some(value: T)
}
