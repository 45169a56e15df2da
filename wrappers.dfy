/** An optional value: `undefined`, `null` or `NaN` on the one side, a value on the other. */
module Wrappers {

  datatype Option<+T> = None | Some(value: T)
}
