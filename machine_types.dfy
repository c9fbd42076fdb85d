/** Fixed-width integer types of the AVR target and the optional sensor reading. */
module MachineTypes {

  const TWO_POW_8: int := 0x100
  const TWO_POW_16: int := 0x1_0000
  const TWO_POW_32: int := 0x1_0000_0000

  /** `uint8_t`, as returned by the clock's hour(), minute() and second(). */
  type u8 = x: int | 0 <= x < TWO_POW_8

  /** `uint16_t`, the type of the thresholds, the interval and the LED duty values. */
  type u16 = x: int | 0 <= x < TWO_POW_16

  /** `unsigned long` on the AVR target (32 bits), the type of millis(). */
  type u32 = x: int | 0 <= x < TWO_POW_32

  /** Storing an int into a `uint16_t` keeps it modulo 2^16. */
  function Wrap16(x: int): (r: u16)
    ensures (r - x) % TWO_POW_16 == 0
    ensures 0 <= x < TWO_POW_16 ==> r == x
  {
    x % TWO_POW_16
  }

  datatype Option<+T> = None | Some(value: T)
}
