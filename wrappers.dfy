/** Option and Result, standing for Rust's `Option<T>` and `Result<T, String>`. */
module Wrappers {

  datatype Option<+T> = None | Some(value: T)

  datatype Result<+T> = Ok(value: T) | Err(error: string)

  /** The unit value `()` of a `Result<(), String>`. */
  datatype Unit = Unit
}
