/** Optional values: stands in for JavaScript's `undefined` / `null` where the widget
    distinguishes a missing value from a present one. */
module Wrappers {

  datatype Option<+T> = None | Some(value: T)
}
