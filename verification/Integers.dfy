/** The firmware's unsigned integer widths. */
module Integers {
  type Byte = x: int | 0 <= x < 0x100
  type Word = x: int | 0 <= x < 0x1_0000
  type Long = x: int | 0 <= x < 0x1_0000_0000
}
