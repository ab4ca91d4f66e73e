/** Option and Result, the two failure-carrying datatypes the model uses for
    Java's `null` and for the exceptions the endpoint throws. */
module Wrappers {

  datatype Option<+T> = None | Some(value: T)

  datatype Result<+R, +E> = Success(value: R) | Failure(error: E)
}
