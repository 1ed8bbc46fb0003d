/** The optional value used for the effect's cleanup handle. */
module Wrappers {

  datatype Option<+T> = None | Some(value: T)
}
