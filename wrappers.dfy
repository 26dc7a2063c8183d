/** Option and settled-promise values shared by the model. */
module Wrappers {

  /** A value that may be absent: `null`/`undefined` in the page's state. */
  datatype Option<+T> = None | Some(value: T) {

    /** The value, or `default` when absent: the `??` operator. */
    function GetOr(default: T): (r: T)
      ensures Some? ==> r == value
      ensures None? ==> r == default
    {
      match this
      case Some(v) => v
      case None => default
    }
  }

  /** How an awaited call into a collaborator settled: it returned a value,
      or it threw an error carrying `message`. */
  datatype Completion<+T> = Resolved(value: T) | Rejected(message: string)
}
