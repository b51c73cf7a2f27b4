/** Optional values: JavaScript's `undefined` fields and Python's `None` arguments; and outcomes
    that are either a value or a raised error. */
module Wrappers {

  datatype Option<T> = None | Some(value: T)

  datatype Result<T, E> = Success(value: T) | Failure(error: E)
}
