/** Optional values and pass/fail outcomes, used for the optional fields of
    the interpreter's response, for absent storage keys and for the ledger's
    thrown errors. */
module Wrappers {

  /** A value that may be absent (a JavaScript `undefined`). */
  datatype Option<+T> = None | Some(value: T) {

    /** The value, or `default` when absent (a default parameter, `x ?? d`). */
    function GetOr(default: T): T {
      match this
      case Some(v) => v
      case None => default
    }
  }

  /** Completion of an operation that may throw: `Fail` carries the message. */
  datatype Outcome<+E> = Pass | Fail(error: E)
}
