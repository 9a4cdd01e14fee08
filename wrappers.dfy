/** Option and Result, the shapes of Rust's `Option<T>` and of an operation
    that either returns a value or panics with a message. */
module Wrappers {

  datatype Option<+T> = None | Some(value: T)

  datatype Result<+R, +E> = Success(value: R) | Failure(error: E)
}
