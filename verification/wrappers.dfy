/** Failure-carrying datatypes shared by the rest of the model: Rust's
    `Option` and `Result`. */
module Wrappers {

  /** An optional value: `None` when absent. */
  datatype Option<+T> = None | Some(value: T)

  /** The outcome of a fallible step: a value, or the error it failed with. */
  datatype Result<+T, +E> = Ok(value: T) | Err(error: E)
}
