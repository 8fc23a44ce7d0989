/** Optional values and success-or-failure values shared by the item model
    and its request handlers. */
module Results {

  /** A value that may be absent: a field missing from a request body or an
      optional schema path left unset. */
  datatype Option<+T> = None | Some(value: T) {

    /** The value when present, `default` otherwise. */
    function GetOr(default: T): T {
      match this
      case Some(v) => v
      case None => default
    }
  }

  /** Either the value an operation produced or the error it failed with. */
  datatype Result<+R, +E> = Success(value: R) | Failure(error: E)
}
