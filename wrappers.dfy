/** Failure-carrying values: a Python `None` return and a raised exception
    become an `Option` and a `Result` respectively. */
module Wrappers {

  datatype Option<+T> = None | Some(value: T)

  datatype Result<+R, +E> = Success(value: R) | Failure(error: E)
}
