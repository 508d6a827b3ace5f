/** Optional values and results, used for the lookups that can miss and for the
    errors `calculateBazi` throws. */
module Wrappers {

  datatype Option<+T> = None | Some(value: T)

  datatype Result<+R, +E> = Success(value: R) | Failure(error: E)
}
