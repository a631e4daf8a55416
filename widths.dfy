/** The ranges of the firmware's unsigned integer types, for modelling
    wrap-around explicitly. */
module Widths {
  /** Values of a `uint8_t`. */
  const U8 := 0x100
  /** Values of a `uint16_t`. */
  const U16 := 0x1_0000
  /** Values of a `uint32_t`. */
  const U32 := 0x1_0000_0000
}
