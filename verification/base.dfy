/** Values that may be absent: PHP's nullable (`?string`, `?Appointment`) types. */
module Base {

  datatype Option<+T> = None | Some(value: T) {

    /** The PHP null-coalescing `$x ?? $default`. */
    function GetOr(default: T): T {
      match this
      case Some(v) => v
      case None => default
    }
  }
}
