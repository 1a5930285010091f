/** Option and Result, the two failure-compatible values the model uses for
    Python's `None` and for exceptions that the callers catch. */
module Wrappers {

  datatype Option<+T> = None | Some(value: T)

  datatype Result<+T, +E> = Success(value: T) | Failure(error: E)
}
