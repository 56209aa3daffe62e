/** A value that may be missing: a Python None, or a call that raised. */
module Wrappers {
  datatype Option<+T> = None | Some(value: T)
}
