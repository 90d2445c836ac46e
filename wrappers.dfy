/** The optional value used wherever the source reads a key that may be absent
    (`undefined`) or parses text that may not be a number. */
module Wrappers {

  datatype Option<+T> = None | Some(value: T) {

    /** The value, or `default` when there is none (the source's `x || default`
        on a lookup that is `undefined` when absent). */
    function GetOr(default: T): T {
      match this
      case Some(v) => v
      case None => default
    }
  }
}
