/** The optional value returned by a lookup that may find nothing. */
module Wrappers {
  datatype Option<+T> = None | Some(value: T)
}
