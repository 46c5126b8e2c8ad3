/** A value that may be absent: an optional field of a record, or the result of a lookup. */
module Wrappers {
  datatype Option<+T> = None | Some(value: T)
}
