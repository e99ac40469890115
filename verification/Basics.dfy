/** What several components use. */
module Basics {
  datatype Option<T> = None | Some(value: T)

  /** 2^64 */
  const WORD: nat := 0x1_0000_0000_0000_0000

  function Max(a: int, b: int): (m: int) { if a <= b then b else a }
}
