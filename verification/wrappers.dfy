/** The optional value used for board cells and for the user's promotion answer. */
module Wrappers {

  datatype Option<+T> = None | Some(value: T)

}
