/** The optional value used throughout the model for JavaScript's `null`,
    `undefined` and optional properties. */
module Wrappers {

  datatype Option<+T> = None | Some(value: T)
}
