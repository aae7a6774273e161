/** An optional value: `None` stands for a JavaScript value that is absent
    (`undefined`, `null`) or of a type the code ignores. */
module Wrappers {

  datatype Option<+T> = None | Some(value: T) {

    /** The value, or `default` when there is none. */
    function GetOr(default: T): T {
      match this
      case Some(v) => v
      case None => default
    }
  }
}
