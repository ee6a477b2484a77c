/** The Some/None datatype used wherever the source works with `undefined` or `null`. */
module Wrappers {

  datatype Option<+T> = None | Some(value: T)
}
