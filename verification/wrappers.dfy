/** The optional value and result types used across the model: an optional value
    (a JavaScript `null`/`undefined` or a present object) and a result that is
    either a value or the error a call would throw. */
module Wrappers {

  datatype Option<+T> = None | Some(value: T)

  datatype Result<+R, +E> = Success(value: R) | Failure(error: E)
}
