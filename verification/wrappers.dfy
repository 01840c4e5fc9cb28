/** The Option type used wherever the source has a value that may be absent
    (`undefined`, `null`, a missing key). */
module Wrappers {
  datatype Option<+T> = None | Some(value: T) {
    function GetOr(default: T): T {
      match this
      case Some(v) => v
      case None => default
    }
  }
}
