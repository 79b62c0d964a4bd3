/** The optional value that stands for JavaScript's `null` (or an absent field). */
module Wrappers {

  datatype Option<+T> = None | Some(value: T)
}
