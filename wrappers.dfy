/** Option and Result, the two failure-carrying wrappers the model uses for
    Python's `None` and for exceptions that a caller sees. */
module Wrappers {

  datatype Option<+T> = None | Some(value: T)

  datatype Result<+T, +E> = Success(value: T) | Failure(error: E)
}
