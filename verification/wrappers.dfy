/** The optional value used for the human's "no action" entry at the start of
    the human price series. */
module Wrappers {

  datatype Option<+T> = None | Some(value: T)
}
