/** The optional value used for nil-able results: an absent neighbour, an
    absent callback notification, an absent stored error. */
module Wrappers {

  datatype Option<+T> = None | Some(value: T)
}
