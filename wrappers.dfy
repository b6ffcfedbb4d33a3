/** The optional value that Swift spells `T?`. */
module Wrappers {

  datatype Option<+T> = None | Some(value: T)
}
