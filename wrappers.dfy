/** Small failure-carrying datatypes shared by the model: Kotlin's nullable
    values and Rust's `Option`, Rust's `Result<(), E>` and `Result<T, E>`. */
module Wrappers {

  datatype Option<+T> = None | Some(value: T)

  /** A `Result<(), E>`: either it worked or it failed with an error. */
  datatype Outcome<+E> = Pass | Fail(error: E)

  datatype Result<+T, +E> = Ok(value: T) | Err(error: E)
}
