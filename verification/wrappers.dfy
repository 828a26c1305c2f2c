/** Optional values: the model of a JavaScript property that may be `undefined`. */
module Wrappers {

  /** `None` is an absent (undefined) value, `Some(v)` a present one. */
  datatype Option<+T> = None | Some(value: T)
}
