/** The optional value used for absent fields, nullable results and missing cookies. */
module Wrappers {

  datatype Option<+T> = None | Some(value: T)
}
