/** Failure-carrying result types shared by the models: a Python function that
    returns `None` as a sentinel becomes an `Option`, one that raises becomes a
    `Result` (it returns a value) or an `Outcome` (it returns nothing). */
module Wrappers {

  datatype Option<+T> = None | Some(value: T)

  datatype Result<+T, +E> = Success(value: T) | Failure(error: E)

  datatype Outcome<+E> = Pass | Fail(error: E)
}
