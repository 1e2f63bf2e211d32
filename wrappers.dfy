/** The optional value used for JavaScript's `undefined`: an optional chain such as
    `data?.records` or a missing record field. */
module Wrappers {

  datatype Option<+T> = None | Some(value: T)
}
