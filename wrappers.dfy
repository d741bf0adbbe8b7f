/** The nullable values of the site: `string | null` state, optional record fields. */
module Wrappers {

  datatype Option<+T> = None | Some(value: T)
}
