/** Option and Result, used for absent values and for the paths on which the tracker gives up. */
module Wrappers {
  datatype Option<+T> = None | Some(value: T)

  datatype Result<+R, +E> = Success(value: R) | Failure(error: E)
}
