/** Optional values and outcomes shared by the itinerary model and the handler. */
module Wrappers {

  /** A JSON field that may be absent (undefined or null in the parsed object). */
  datatype Option<+T> = None | Some(value: T) {

    /** The value if present, otherwise `default` — JavaScript's `x || default` on an object. */
    function GetOr(default: T): T {
      match this
      case Some(v) => v
      case None => default
    }
  }

  /** The value a `try` block produces, or the message of the error it threw. */
  datatype Result<+R, +E> = Success(value: R) | Failure(error: E)
}
