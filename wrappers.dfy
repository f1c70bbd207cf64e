/**
 * Failure-carrying values shared by every module: an optional value, a
 * success-or-error result, and the kinds of Go `error` value that the
 * modelled code ever inspects.
 */
module Wrappers {

  datatype Option<+T> = None | Some(value: T)

  datatype Result<+T, +E> = Ok(value: T) | Err(error: E)

  /**
   * A Go `error` as far as its callers look at it: the only question the
   * code ever asks of an error is `os.IsNotExist(err)`; every other error is
   * passed on with its message.
   */
  datatype Error = NotExist | Failure(message: string)
}
