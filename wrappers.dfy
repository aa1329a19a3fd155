/** The usual optional-value datatype, used for a hand-off that may not happen. */
module Wrappers {

  datatype Option<+T> = None | Some(value: T)
}
