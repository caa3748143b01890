/** Optional values and results with a typed failure, used for the JavaScript
    `undefined`/empty-string cases and for exceptions thrown by the action. */
module Wrappers {
  datatype Option<+T> = None | Some(value: T)

  datatype Result<+T, +E> = Ok(value: T) | Err(error: E)
}
