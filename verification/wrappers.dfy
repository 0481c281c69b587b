/** The optional value returned by lookups that may find nothing
    (JavaScript's `undefined` result of `Array.prototype.find`). */
module Wrappers {

  datatype Option<+T> = None | Some(value: T)
}
