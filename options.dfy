/** A value that may be absent: a nullable Java reference of a value type (a String, a JSONObject). */
module Options {

  datatype Option<+T> = None | Some(value: T) {

    /** The value if present, otherwise `default`. */
    function GetOr(default: T): T {
      match this
      case Some(v) => v
      case None => default
    }
  }
}
