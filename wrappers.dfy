/** Failure-carrying values shared by the whole model: Rust's `Option` and `Result`. */
module Wrappers {

  datatype Option<+T> = None | Some(value: T)

  datatype Result<+T, +E> = Ok(value: T) | Err(error: E)

  /**
   * How a command handler ends: it returns a value, it raises an error through
   * `?`, or it panics (an `unwrap` on `None`, an unsigned underflow, an index
   * out of range).
   */
  datatype Outcome<+T> = Returned(value: T) | Raised(error: string) | Panicked
}
