/** The optional value used for every field that a pattern search may fail to find. */
module Wrappers {

  /** `None` stands for JavaScript's `null` / `undefined` result of a failed lookup or match. */
  datatype Option<+T> = None | Some(value: T) {

    /** The wrapped value, or `default` when there is none. */
    function GetOr(default: T): T {
      match this
      case Some(v) => v
      case None => default
    }
  }
}
