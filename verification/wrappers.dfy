/** The optional value used where the source reads a possibly-undefined
    element or returns early without a result. */
module Wrappers {

  datatype Option<+T> = None | Some(value: T)
}
