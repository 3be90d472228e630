/** An optional value: JavaScript's `null` / `undefined` / `NaN` outcomes become `None`. */
module Wrappers {
  datatype Option<+T> = None | Some(value: T)
}
