/** The optional-value datatype used for Go's nilable interface values. */
module Wrappers {

  /** `None` stands for Go's `nil`; `Some(v)` for a non-nil value `v`. */
  datatype Option<+T> = None | Some(value: T)
}
