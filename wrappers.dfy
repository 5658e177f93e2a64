/** Optional values and results with an error path, used wherever the
    TypeScript code may return `undefined` or throw. */
module Wrappers {

  datatype Option<+T> = None | Some(value: T)

  datatype Result<+T, +E> = Success(value: T) | Failure(error: E)
}
