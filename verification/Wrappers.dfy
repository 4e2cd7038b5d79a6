/** A value that may be missing: Go's second result, and Python's None. */
module Wrappers {
  datatype Option<+T> = None | Some(value: T)
}
