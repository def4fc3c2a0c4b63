/** The optional value used for JavaScript's `null`/`undefined` and for Candid's `opt`. */
module Wrappers {

  datatype Option<+T> = None | Some(value: T)
}
