/** The optional value used for the controller's shared pointers (null or set). */
module Wrappers {

  datatype Option<+T> = None | Some(value: T)
}
