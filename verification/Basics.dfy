/** Words and options. */
module Basics {

  /** One past the largest unsigned 64-bit value. */
  const U64: nat := 0x1_0000_0000_0000_0000

  /** The largest unsigned 32-bit value. */
  const U32_MAX: nat := 0xFFFF_FFFF

  datatype Option<T> = None | Some(value: T)
}
