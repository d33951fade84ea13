/** The optional value used where the source has a nil pointer, a nil error
    or an absent map entry. */
module Wrappers {

  datatype Option<+T> = None | Some(value: T)
}
