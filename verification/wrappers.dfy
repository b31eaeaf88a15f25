/** Optional values and success/failure outcomes.

    `Option` stands for TypeScript's `T | undefined | null`; `Result` stands
    for an awaited call that either resolves with a value or rejects with an
    error message. */
module Wrappers {

  datatype Option<+T> = None | Some(value: T)

  datatype Result<+R, +E> = Success(value: R) | Failure(error: E)
}
