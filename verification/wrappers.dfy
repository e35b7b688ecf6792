// An optional value: JavaScript's `null` / `undefined` where the game uses them.
module Wrappers {
  datatype Option<T> = None | Some(value: T)
}
