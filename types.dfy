/** Machine integer widths and the Option wrapper used throughout the model. */
module Types {

  /** An unsigned 8-bit value (`uint8_t`). */
  newtype u8 = x: int | 0 <= x < 0x100

  /** An unsigned 16-bit value (`uint16_t`). */
  newtype u16 = x: int | 0 <= x < 0x1_0000

  /** An unsigned 32-bit value (`uint32_t`). */
  newtype u32 = x: int | 0 <= x < 0x1_0000_0000

  /** A value that may be missing (a null pointer, an absent property). */
  datatype Option<+T> = None | Some(value: T)

  /** Conversion of a 32-bit value into an 8-bit one, as a C assignment truncates it. */
  function Trunc8(x: u32): (r: u8)
    ensures r as int == x as int % 0x100
  {
    (x as int % 0x100) as u8
  }

  /** The value a `uint16_t` holds after being assigned the integer `n`. */
  function Wrap16(n: int): (r: u16)
    ensures 0 < n < 0x1_0000 ==> r as int == n
  {
    (n % 0x1_0000) as u16
  }
}
