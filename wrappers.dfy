/** The optional value used for the saga's nullable `DateTime?` fields. */
module Wrappers {

  datatype Option<+T> = None | Some(value: T)
}
