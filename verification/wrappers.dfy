/** The optional-value shape shared by the whole model: a field a request may
    omit, a relation the database may not join, a parse that may fail. */
module Wrappers {

  datatype Option<+T> = None | Some(value: T) {

    /** The value, or `default` when absent; models JavaScript's `??` and `||`
        fallbacks on an optional field. */
    function GetOr(default: T): T {
      match this
      case Some(v) => v
      case None => default
    }
  }
}
