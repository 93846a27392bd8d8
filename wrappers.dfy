/** Optional values and success-or-failure outcomes, used for the values that
    JavaScript leaves `null`/`undefined` and for the outcomes of calls into
    libraries that may reject. */
module Wrappers {

  /** `None` stands for JavaScript's `null` or `undefined`. */
  datatype Option<+T> = None | Some(value: T)

  /** The outcome of a promise: resolved with a value or rejected with an error message. */
  datatype Result<+R, +E> = Success(value: R) | Failure(error: E)
}
