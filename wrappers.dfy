/** The Option and Result types shared by the model. */
module Wrappers {

  datatype Option<+T> = None | Some(value: T)

  /** The Rust `Result<T, E>` that every fallible step of the tool returns. */
  datatype Result<+T, +E> = Ok(value: T) | Err(error: E)
}
