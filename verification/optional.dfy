/** A value that may be absent: a missing key, a null column, a failed fetch. */
module Optional {

  datatype Option<+T> = None | Some(value: T) {

    /** The value, or `default` when absent: the `??` / `.get(k, d)` pattern. */
    function GetOr(default: T): T {
      match this
      case Some(v) => v
      case None => default
    }
  }
}
