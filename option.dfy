/** The optional value used wherever the source reads something that may be
    `null` or `undefined` (a row that a query did not return, an unset field). */
module Opt {
  datatype Option<+T> = None | Some(value: T)
}
