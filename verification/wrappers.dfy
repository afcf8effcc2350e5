/** Failure-carrying results shared by every module of the model.

    The source signals failures in two ways: Odoo actions raise a
    `UserError`/`ValidationError` and JavaScript handlers silently return.
    The model makes the first an `Err` carrying the message key and the
    second an unchanged state.
 */
module Wrappers {

  /** A value that may be absent: Python's `None`/`False`, JavaScript's
      `null`/`undefined`. */
  datatype Option<+T> = None | Some(value: T) {

    /** The value, or `default` when absent (Python's `x or default`
        for a value that is never falsy when present). */
    function GetOr(default: T): T {
      match this
      case Some(v) => v
      case None => default
    }
  }

  /** The outcome of an action that can raise. */
  datatype Result<+T> = Ok(value: T) | Err(error: string) {

    predicate IsFailure() {
      Err?
    }

    function PropagateFailure<U>(): Result<U>
      requires Err?
    {
      Err(error)
    }

    function Extract(): T
      requires Ok?
    {
      value
    }
  }
}
