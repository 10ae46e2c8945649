/** `Option` and `Result`, shared by the layout and the input controller. */
module Wrappers {

  /** Rust's `Option<T>`. */
  datatype Option<+T> = None | Some(value: T)

  /** A computation that either produces a value or is rejected with an error. */
  datatype Result<+T, +E> = Success(value: T) | Failure(error: E)
}
