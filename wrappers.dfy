/** The optional value used for the fields the source may leave undefined. */
module Wrappers {

  datatype Option<+T> = None | Some(value: T)
}
