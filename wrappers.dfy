/** Option and Result values, used where the application returns an error
    string, raises, or leaves a value unset. */
module Wrappers {

  datatype Option<+T> = None | Some(value: T)

  datatype Result<+T, +E> = Success(value: T) | Failure(error: E)
}
