/** The optional-value type used throughout the model (PHP's `null` / `false` sentinels). */
module Wrappers {
  datatype Option<+T> = None | Some(value: T)
}
