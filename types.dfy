/** The machine types the driver's values live in. */
module Types {
  /** A value of the AVR's 16-bit `int`. */
  type Int16 = x: int | -0x8000 <= x < 0x8000

  /** One byte on the bus or in a clock register, as its bit pattern 0..255. */
  type Byte = x: int | 0 <= x < 0x100
}
