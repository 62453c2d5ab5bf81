/** The optional value that stands in for Kotlin's nullable references. */
module Wrappers {

  /** `None` is Kotlin's `null`; `Some(v)` a present value. */
  datatype Option<+T> = None | Some(value: T)
}
