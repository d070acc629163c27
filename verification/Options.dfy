/** The absent-or-present and ok-or-error values shared by every component. */
module Options {
  datatype Option<+T> = None | Some(value: T) {
    function GetOr(default: T): T {
      match this
      case Some(v) => v
      case None => default
    }
  }

  /** A Python call that returned a value or raised an exception with a message. */
  datatype Result<+T> = Ok(value: T) | Err(message: string)
}
