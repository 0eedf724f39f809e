/** The optional value that the installer's helpers return: Python's `None`
    on failure, the payload otherwise. */
module Options {

  datatype Option<+T> = None | Some(value: T) {

    /** The payload, or `default` when there is none. */
    function GetOr(default: T): (r: T)
      ensures Some? ==> r == value
      ensures None? ==> r == default
    {
      match this
      case Some(v) => v
      case None => default
    }
  }
}
