/** The optional value used for a response that may be absent: a missed
    cache lookup, a rejected network fetch, a handler that resolves to
    nothing. */
module Wrappers {

  datatype Option<+T> = None | Some(value: T) {

    /** The carried value, or `default` when there is none. */
    function GetOr(default: T): T {
      match this
      case Some(v) => v
      case None => default
    }
  }
}
