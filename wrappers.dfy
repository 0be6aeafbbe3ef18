/** The optional value used where the source answers "nothing". */
module Wrappers {

  datatype Option<+T> = None | Some(value: T)
}
