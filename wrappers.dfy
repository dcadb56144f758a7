/** Optional values and results with an error, used for nullable columns,
    optional filter fields and the error exits of the scheduler. */
module Wrappers {

  /** A field or column that may be absent (`None` in Python, NULL in SQL). */
  datatype Option<+T> = None | Some(value: T)

  /** The outcome of an operation that may raise. */
  datatype Result<+T, +E> = Success(value: T) | Failure(error: E)
}
