/** Failure-carrying return values shared by both services. */
module Results {

  /** An optional value: the Go pattern `(v, ok)`. */
  datatype Option<+T> = None | Some(value: T) {
    function GetOr(default: T): T {
      match this
      case Some(v) => v
      case None => default
    }
  }

  /** A value or an error: the Go pattern `(v, err)`. */
  datatype Result<+T, +E> = Success(value: T) | Failure(error: E)
}
