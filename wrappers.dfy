/** Failure-carrying results shared by every module of the model.
    Go functions that return `(T, error)` become `Result<T, E>`, and
    functions that return only `error` become `Outcome<E>`. */
module Wrappers {

  datatype Option<+T> = None | Some(value: T)

  datatype Result<+T, +E> = Success(value: T) | Failure(error: E)

  datatype Outcome<+E> = Pass | Fail(error: E)
}
