/** The integer widths of the firmware's C code. */
module Bytes {
  /** unsigned char */
  type byte = x: int | 0 <= x < 0x100
  /** unsigned short */
  type ushort = x: int | 0 <= x < 0x1_0000
}
