/** The wrappers used throughout the model: `Option` for a value a lookup may
    not find, `Result` for an operation that can throw. */
module Wrappers {

  datatype Option<+T> = None | Some(value: T)

  datatype Result<+R, +E> = Success(value: R) | Failure(error: E)
}
