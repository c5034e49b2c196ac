/** An optional value, for JavaScript's `undefined` / missing values. */
module Wrappers {

  datatype Option<T> = None | Some(value: T)
}
