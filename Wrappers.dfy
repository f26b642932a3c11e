/** The optional-value type shared by the modules. */
module Wrappers {

  /** A value that may be absent: JavaScript's `null` result or `NaN`. */
  datatype Option<+T> = None | Some(value: T)
}
