/** The optional value used for nullable columns and optional request fields. */
module Wrappers {

  datatype Option<+T> = None | Some(value: T)
}
