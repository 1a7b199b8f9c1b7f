/** The optional value used wherever the script returns `None` for "no result". */
module Wrappers {

  datatype Option<+T> = None | Some(value: T)
}
