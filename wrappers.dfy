/** Option and Result, used for JavaScript's optional values and for the
    thrown errors that the handlers catch and turn into responses. */
module Wrappers {

  datatype Option<+T> = None | Some(value: T)

  datatype Result<+T, +E> = Success(value: T) | Failure(error: E)
}
