/** Optional values and the replies of fallible remote calls. */
module Results {

  /** A value that may be absent: JavaScript's `null` / `undefined`. */
  datatype Option<+T> = None | Some(value: T) {
    function GetOr(default: T): T {
      match this
      case Some(v) => v
      case None => default
    }
  }

  /** The reply of a remote call that yields data: the data, or the error's message. */
  datatype Result<+T> = Ok(value: T) | Err(message: string)

  /** The reply of a remote call that yields nothing but may fail. */
  datatype Status = Succeeded | Failed(message: string)
}
