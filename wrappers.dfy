/** Option and Result, used for the absent keys of the workflow state and for
    the success/failure outcome of every call into a reasoning port. */
module Wrappers {

  datatype Option<+T> = None | Some(value: T)

  datatype Result<+R, +E> = Success(value: R) | Failure(error: E)
}
