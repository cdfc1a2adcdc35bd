/** The optional value used where the scripts test a reference for null. */
module Wrappers {

  datatype Option<+T> = None | Some(value: T)

}
