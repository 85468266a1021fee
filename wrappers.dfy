/** The two failure-carrying datatypes of the model: Option stands for a value
    that JavaScript gives as `null`/`undefined`, Result for a call that either
    returns or throws. */
module Wrappers {

  datatype Option<+T> = None | Some(value: T)

  datatype Result<+T, +E> = Success(value: T) | Failure(error: E)
}
