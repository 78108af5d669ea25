/** The optional value used wherever the source returns `null` or leaves a field undefined. */
module Wrappers {
  datatype Option<+T> = None | Some(value: T) {
    /** The value, or the default the source substitutes with `|| default`. */
    function GetOr(default: T): T {
      match this
      case Some(v) => v
      case None => default
    }
  }
}
