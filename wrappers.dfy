/** Failure-carrying results: the Python code signals errors by raising
    exceptions; the model returns them as values. */
module Wrappers {

  datatype Option<+T> = None | Some(value: T)

  datatype Result<+R, +E> = Success(value: R) | Failure(error: E)
}
