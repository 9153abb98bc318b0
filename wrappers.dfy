/** The optional value used for decoding outcomes and map lookups. */
module Wrappers {
  datatype Option<+T> = None | Some(value: T)
}
