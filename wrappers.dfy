/** The optional value shared by the other modules: JavaScript's `undefined`
    (an absent query parameter, a missing property, an unset option) is `None`. */
module Wrappers {

  datatype Option<+T> = None | Some(value: T) {

    /** The value, or `default` when absent. */
    function GetOr(default: T): T {
      match this
      case Some(v) => v
      case None => default
    }
  }
}
