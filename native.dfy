/** Machine integer widths used by the firmware, and an optional value. */
module Native {
  /** `uint16_t`: raw touch-controller readings and calibration values. */
  type u16 = x: int | 0 <= x < 0x1_0000

  /** `unsigned long` on the 32-bit target: the millisecond clock. */
  type u32 = x: int | 0 <= x < 0x1_0000_0000

  /** `int32_t`: touch coordinates and display dimensions. */
  type i32 = x: int | -0x8000_0000 <= x < 0x8000_0000

  datatype Option<+T> = None | Some(value: T)
}
