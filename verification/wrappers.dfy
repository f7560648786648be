/** The Some/None datatype used wherever the program can come back with `undefined`. */
module Wrappers {

  datatype Option<+T> = None | Some(value: T)
}
