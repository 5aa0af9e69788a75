/** Wrappers used across the model: an optional value and a result that
    either carries a value or the error the library would raise. */
module Wrappers {

  datatype Option<+T> = None | Some(value: T)

  datatype Result<+R, +E> = Success(value: R) | Failure(error: E)
}
