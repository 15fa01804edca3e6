/** The optional value used throughout the model: a Python value that may be absent
    (a dictionary key that was never set, a parse that failed, an exception that aborted). */
module Wrappers {
  datatype Option<+T> = None | Some(value: T)
}
