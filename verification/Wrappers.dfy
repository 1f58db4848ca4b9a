/** Small shared helpers. */
module Wrappers {

  /** A value that may be absent: a checkpoint file that may not exist yet. */
  datatype Option<+T> = None | Some(value: T)

  function Min(a: int, b: int): int
  {
    if a <= b then a else b
  }
}
