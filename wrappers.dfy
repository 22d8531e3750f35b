/** The Option type used for every field an order record may lack. */
module Wrappers {

  /** An optional value: `None` stands for a field that is absent (null). */
  datatype Option<+T> = None | Some(value: T) {

    /** The wrapped value, or `default` when there is none. */
    function GetOr(default: T): T {
      match this
      case Some(v) => v
      case None => default
    }
  }
}
