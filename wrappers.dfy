/** The nullable/optional values of the source (`string | null`, an absent
    property, an `undefined` argument) as one datatype. */
module Wrappers {

  datatype Option<+T> = None | Some(value: T) {

    /** The value, or a default when absent. */
    function GetOr(default: T): T {
      match this
      case Some(v) => v
      case None => default
    }
  }
}
