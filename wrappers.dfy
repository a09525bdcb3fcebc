/** The optional value used wherever the pages read a field that may be null or
    undefined, or search a list that may not contain the item. */
module Wrappers {

  datatype Option<+T> = None | Some(value: T) {

    /** The value, or `default` when there is none (JavaScript's `x || default`
        for a value that cannot itself be falsy). */
    function GetOr(default: T): T {
      match this
      case Some(v) => v
      case None => default
    }
  }
}
