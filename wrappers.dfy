/** Option and Result, used for the resolver's error path and for optional bookkeeping. */
module Wrappers {

  datatype Option<+T> = None | Some(value: T)

  datatype Result<+R, +E> = Success(value: R) | Failure(error: E)
}
