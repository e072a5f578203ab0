/** Optional values and results with an error value, used wherever the
    dashboard code reads `null`/`undefined` or catches an exception. */
module Wrappers {

  /** A value that may be absent (`null` or `undefined` in the dashboard code). */
  datatype Option<+T> = None | Some(value: T) {

    /** `x ?? d`: the value, or the default when absent. */
    function GetOr(default: T): T {
      match this
      case Some(v) => v
      case None => default
    }
  }

  /** JavaScript truthiness of an optional string (or list): present and
      not empty. */
  predicate Given<T>(s: Option<seq<T>>)
  {
    s.Some? && |s.value| > 0
  }

  /** The outcome of an operation that may throw. */
  datatype Result<+T, +E> = Ok(value: T) | Err(error: E)
}
