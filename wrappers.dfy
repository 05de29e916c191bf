/** The optional value used wherever the source has `null` or an absent result. */
module Wrappers {

  datatype Option<+T> = None | Some(value: T)
}
