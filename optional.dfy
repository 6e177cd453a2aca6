/** An optional value: a field that may be absent (a `Partial` update, an
    empty storage slot, no logged-in user). */
module Optional {

  datatype Option<T> = None | Some(value: T) {

    /** The value, or `default` when there is none. */
    function GetOr(default: T): T
    {
      match this
      case Some(v) => v
      case None => default
    }
  }
}
