/** The optional value used for registry lookups and for a delivery whose
    target socket may be missing. */
module Wrappers {

  datatype Option<+T> = None | Some(value: T)

}
