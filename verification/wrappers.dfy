/** Optional values and results with an error, for PHP's `null` and fatal errors. */
module Wrappers {

  /** `None` stands for PHP's `null` (a field never assigned). */
  datatype Option<+T> = None | Some(value: T)

  datatype Result<+R, +E> = Success(value: R) | Failure(error: E)
}
