/** Option and Result: the absent value of an optional result, and an operation that either
    produces a value or stops with an error (a Python exception in the modelled code). */
module Wrappers {

  datatype Option<+T> = None | Some(value: T)

  datatype Result<+R, +E> = Success(value: R) | Failure(error: E)
}
