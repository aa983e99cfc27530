/** The conventional optional value, standing for a JavaScript value that may be
    `null` or `undefined`. */
module Options {

  datatype Option<+T> = None | Some(value: T) {

    /** Returns the value held in Some, or `default` for None. */
    function GetOr(default: T): T {
      match this
      case Some(v) => v
      case None => default
    }
  }
}
