/** Failure-carrying return types: `Option` for a matcher callback that may
    decline to rewrite, `Result` for a helper that may throw. */
module Wrappers {

  datatype Option<+T> = None | Some(value: T)

  datatype Result<+R, +E> = Success(value: R) | Failure(error: E)
}
