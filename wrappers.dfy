/** The optional value used for every "may be absent" result of the report script. */
module Wrappers {

  datatype Option<+T> = None | Some(value: T)
}
