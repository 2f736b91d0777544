/** What every other module uses. */
module Basics {
  type byte = b: int | 0 <= b < 256

  datatype Option<+T> = None | Some(value: T)
}
