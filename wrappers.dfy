/** Optional values and success/failure results, the Dafny counterparts of Swift's
    `T?` and of a `throws` function's two ways out. */
module Wrappers {

  datatype Option<+T> = None | Some(value: T)

  datatype Result<+T, +E> = Success(value: T) | Failure(error: E)
}
