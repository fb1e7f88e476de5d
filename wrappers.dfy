/** Optional values and results, used for JavaScript's `null` and for failures. */
module Wrappers {

  /** A value that may be absent (`null` in the client, a missing key on the server). */
  datatype Option<+T> = None | Some(value: T)

  /** Either a value or the error that replaced it. */
  datatype Result<+R, +E> = Success(value: R) | Failure(error: E)
}
