/** The optional value used for the bundle root and the listener handle. */
module Wrappers {
  datatype Option<+T> = None | Some(value: T)
}
