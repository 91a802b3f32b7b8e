/** The absent-or-present value that stands for Go's `nil`-or-value returns. */
module Wrappers {

  datatype Option<+T> = None | Some(value: T)
}
