/** The Option type used for the source's `null` / `undefined` values. */
module Wrappers {

  datatype Option<+T> = None | Some(value: T)
}
