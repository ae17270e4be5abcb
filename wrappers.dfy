/** The usual Some/None wrapper, used for JavaScript values that may be absent (undefined or null). */
module Wrappers {

  datatype Option<+T> = None | Some(value: T)

}
