/** Optional values and results with an error, used wherever the source has a
    nullable column or an operation that can be refused. */
module Wrappers {

  /** A value that may be absent, as a nullable column or an absent request parameter. */
  datatype Option<+T> = None | Some(value: T) {

    /** The value, or `default` when there is none. */
    function GetOr(default: T): T
    {
      match this
      case Some(v) => v
      case None => default
    }
  }

  /** The outcome of an operation that either succeeds with a value or is refused with an error. */
  datatype Result<+T, +E> = Ok(value: T) | Err(error: E)
}
