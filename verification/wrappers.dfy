/** Small result types shared by the model. */
module Wrappers {

  /** A value that may be absent (a missing JSON key, `null` or `undefined`). */
  datatype Option<+T> = None | Some(value: T) {
    function GetOr(default: T): T {
      match this
      case Some(v) => v
      case None => default
    }
  }

  /** The outcome of an asynchronous call that may throw: an upload or an inline encoding. */
  datatype Attempt<+T> = Done(result: T) | Threw
}
