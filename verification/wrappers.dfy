/** An optional value and a value-or-error result, used throughout the model
    (a raised Python exception is a `Failure`). */
module Wrappers {

  datatype Option<+T> = None | Some(value: T)

  datatype Result<+R, +E> = Success(value: R) | Failure(error: E)
}
