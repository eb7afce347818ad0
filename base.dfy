/** Widths and compile-time constants shared by the whole driver. */
module Base {

  /** An unsigned byte, the source's `u8`. */
  newtype u8 = x: int | 0 <= x < 0x100

  /** The longest daisy chain the driver supports; the transmit buffer holds two bytes per device. */
  const MAX_DISPLAYS: nat := 8

  /** Digit (or matrix row) registers per device. */
  const NUM_DIGITS: u8 := 8
}
