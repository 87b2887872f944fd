/** The optional value used for the coordinator's timer slot. */
module Wrappers {

  datatype Option<+T> = None | Some(value: T)
}
