/** The optional value used for properties that may be absent. */
module Wrappers {
  datatype Option<+T> = None | Some(value: T)
}
