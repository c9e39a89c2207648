/** The optional value used wherever the storefront's JavaScript has `null` or `undefined`. */
module Wrappers {

  datatype Option<+T> = None | Some(value: T) {

    /** The value, or `default` when there is none. */
    function GetOr(default: T): T {
      match this
      case Some(v) => v
      case None => default
    }
  }

  /** The result of a network call the model does not make: it resolved with a value, or it threw. */
  datatype Outcome<+T> = Threw(message: string) | Returned(value: T)
}
