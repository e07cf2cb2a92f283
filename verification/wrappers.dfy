/** The optional value used for the store's "null" returns and for import fields that are absent or falsy. */
module Wrappers {
  datatype Option<+T> = None | Some(value: T)
}
