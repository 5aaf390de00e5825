/** Optional values and the outcome of a call into the modelled Python code. */
module Outcomes {

  /** A value that may be absent (Python `None`). */
  datatype Option<+T> = None | Some(value: T)

  /** How a call of the modelled code ends: it returns a value, or it raises an
      exception nobody catches, which aborts the request (the web framework
      answers it with an internal server error). */
  datatype Outcome<+T> = Done(value: T) | Crashed
}
