/** The optional value used across the model: a Go `nil` pointer, a missing
    cookie, an error that did not happen. */
module Wrappers {

  datatype Option<+T> = None | Some(value: T)
}
