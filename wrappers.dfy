/** Option and Result values, standing in for `undefined` and for errors
    returned or thrown as values. */
module Wrappers {

  datatype Option<+T> = None | Some(value: T)

  datatype Result<+R, +E> = Success(value: R) | Failure(error: E)
}
