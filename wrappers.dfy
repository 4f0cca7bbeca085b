/** An optional value: the model's stand-in for JavaScript's `null` and
    `undefined` in the page script's module-level variables. */
module Wrappers {

  datatype Option<T> = None | Some(value: T)
}
