/** Optional values and call outcomes shared by the whole model. */
module Wrappers {

  /** A value that may be absent (`undefined` / `null` in the storefront). */
  datatype Option<T> = None | Some(value: T) {
    function GetOr(default: T): T {
      match this
      case Some(v) => v
      case None => default
    }
  }

  /** The outcome of a call that may throw: the value it resolved to, or what it threw. */
  datatype Result<T, E> = Success(value: T) | Failure(error: E)
}
