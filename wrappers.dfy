/** The optional-value datatype used for JavaScript's "value or null". */
module Wrappers {

  datatype Option<+T> = None | Some(value: T)
}
