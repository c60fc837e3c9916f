/** Option and Result, the shapes of Rust's `Option` and `Result` that the model needs. */
module Wrappers {

  datatype Option<T> = None | Some(value: T)

  datatype Result<T, E> = Ok(value: T) | Err(error: E)
}
