/** The DS1339B's bus address and register map. */
module AddressMap {
  import opened Types

  /** 7-bit device address 0x68 with the direction bit: write ... */
  const SlaveAddWrite: Byte := 0xD0
  /** ... and read. */
  const SlaveAddRead: Byte := 0xD1

  const SecAdd: Byte := 0x00
  const MinAdd: Byte := 0x01
  const HrAdd: Byte := 0x02
  /** Day-of-week register: declared, never accessed. */
  const DayAdd: Byte := 0x03
  const DDAdd: Byte := 0x04
  const MMAdd: Byte := 0x05
  const YYAdd: Byte := 0x06
  /** Declared, never accessed. */
  const DeviceId: Byte := 0x0A
}
