/** Optional values and error-carrying results, standing in for JavaScript's
    `undefined` keys and thrown `Error`s. */
module Wrappers {

  datatype Option<+T> = None | Some(value: T)

  datatype Result<+R, +E> = Success(value: R) | Failure(error: E)

  datatype Outcome<+E> = Pass | Fail(error: E)
}
