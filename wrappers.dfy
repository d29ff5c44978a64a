/** The optional value used for JavaScript's `undefined` (and, for numbers, `NaN`). */
module Wrappers {
  datatype Option<+T> = None | Some(value: T)
}
