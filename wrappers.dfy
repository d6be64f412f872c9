/** A value that may be absent: Ruby's `nil` where a lookup or a header finds nothing. */
module Wrappers {

  datatype Option<+T> = None | Some(value: T)
}
