/** The optional value used for a missing initial record and for operations that can throw. */
module Wrappers {

  datatype Option<+T> = None | Some(value: T)
}
