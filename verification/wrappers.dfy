/** The optional value used wherever the board model can come back empty-handed:
    a missing object field, a string that does not parse, a value that does not decode. */
module Wrappers {

  datatype Option<+T> = None | Some(value: T) {

    /** The wrapped value, or `default` when there is none. */
    function GetOr(default: T): T {
      match this
      case Some(v) => v
      case None => default
    }
  }
}
