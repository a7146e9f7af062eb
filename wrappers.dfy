/** The Option datatype used for conversions that may produce no value. */
module Wrappers {

  datatype Option<+T> = None | Some(value: T)
}
