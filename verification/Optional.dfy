/** An optional value: an engine reference that may be missing, a stored
    preference that may be absent, an event that may not have happened. */
module Optional {
  datatype Option<+T> = None | Some(value: T) {
    function GetOr(default: T): T {
      match this
      case Some(v) => v
      case None => default
    }
  }
}
