/** The optional value used where the application may receive nothing. */
module Wrappers {

  datatype Option<+T> = None | Some(value: T)
}
