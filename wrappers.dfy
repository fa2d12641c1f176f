/** The optional value used for absent arguments and for a logger without a file. */
module Wrappers {
  datatype Option<+T> = None | Some(value: T)
}
