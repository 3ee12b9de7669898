/** The optional value used where the program may or may not have something. */
module Wrappers {

  datatype Option<+T> = None | Some(value: T)
}
