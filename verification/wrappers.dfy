/** Option and Result, the two failure-carrying datatypes the model uses in place
    of Swift optionals and of `throws`. */
module Wrappers {

  /** Swift's `T?`: either no value or one value. */
  datatype Option<+T> = None | Some(value: T)

  /** The outcome of a throwing call: the value it returns or the error it throws. */
  datatype Result<+R, +E> = Success(value: R) | Failure(error: E)
}
