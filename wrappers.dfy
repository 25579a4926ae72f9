/** Option and Outcome: the model's stand-ins for Go's nil results and `error` values. */
module Wrappers {

  /** A value that may be absent: a failed external call, or a missing node. */
  datatype Option<+T> = None | Some(value: T)

  /** The verdict of a step or of the whole run: it passed, or it aborted with an error. */
  datatype Outcome<+E> = Pass | Fail(error: E)
}
