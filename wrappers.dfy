/** A value that may be absent: Swift's Optional, and the outcome of a call that may throw. */
module Wrappers {

  datatype Option<+T> = None | Some(value: T)
}
