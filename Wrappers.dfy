/** Option and Result, used for the values JavaScript signals with
    `undefined`, `NaN` or a thrown exception. */
module Wrappers {

  datatype Option<+T> = None | Some(value: T)

  datatype Result<+R, +E> = Success(value: R) | Failure(error: E)
}
