/**
 * Option and Result, the two failure-carrying datatypes the model uses:
 * `None` stands for a pandas NaN, `Failure` for a raised exception.
 */
module Wrappers {

  datatype Option<+T> = None | Some(value: T)

  datatype Result<+R, +E> = Success(value: R) | Failure(error: E)
}
