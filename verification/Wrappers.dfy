/** A value that may be missing: a NULL pointer, a lookup that finds nothing, a parse that fails. */
module Wrappers {
  datatype Option<+T> = None | Some(value: T)
}
