/** Failure-compatible wrappers used throughout the model: Python's `X | None`
    becomes `Option<X>`, and an operation that may raise becomes `Result<X, E>`. */
module Wrappers {

  datatype Option<+T> = None | Some(value: T)

  datatype Result<+T, +E> = Success(value: T) | Failure(error: E)
}
