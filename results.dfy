/** Optional values and fallible results, as Rust's `Option` and `anyhow::Result`. */
module Results {

  datatype Option<+T> = None | Some(value: T) {
    function GetOr(default: T): T {
      match this
      case Some(v) => v
      case None => default
    }
  }

  /** A fallible result; the error is the message `anyhow` would carry. */
  datatype Result<+T> = Ok(value: T) | Err(error: string)
}
