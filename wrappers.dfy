/** Optional values, for fields a form could not clean and lookups that find nothing. */
module Wrappers {

  datatype Option<+T> = None | Some(value: T) {

    /** The wrapped value, or `default` when there is none. */
    function GetOr(default: T): T
    {
      match this
      case Some(v) => v
      case None => default
    }
  }

  /** A value, or the errors that stopped it. */
  datatype Result<+T, +E> = Success(value: T) | Failure(error: E)
}
