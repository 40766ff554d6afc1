/** The optional value used for "absent" (JavaScript null) and for a failed parse. */
module Wrappers {

  datatype Option<+T> = None | Some(value: T)
}
