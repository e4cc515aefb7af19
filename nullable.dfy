/** A value that the page state holds as `null` until the first fetch completes. */
module Nullable {
  datatype Option<+T> = None | Some(value: T)
}
