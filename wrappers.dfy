/** The optional value used for request fields a client may leave out. */
module Wrappers {

  datatype Option<+T> = None | Some(value: T)
}
