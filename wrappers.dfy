/** The optional value used for a missing number field and a failed parse. */
module Wrappers {
  datatype Option<+T> = None | Some(value: T)
}
