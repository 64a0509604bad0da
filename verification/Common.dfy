/** Types shared by the other modules. */
module Common {

  datatype Option<+T> = None | Some(value: T)

  type u8 = x: int | 0 <= x < 0x100
  type u16 = x: int | 0 <= x < 0x1_0000
  type u32 = x: int | 0 <= x < 0x1_0000_0000
  type u64 = x: int | 0 <= x < 0x1_0000_0000_0000_0000

  /** `b` itself, shown as one proof obligation and not as one for each of its conjuncts. */
  predicate Undivided(b: bool) { b == true }

  const TWO_32: int := 0x1_0000_0000
  const TWO_64: int := 0x1_0000_0000_0000_0000

  /** `u32::wrapping_add`. */
  function WrappingAdd32(a: u32, b: u32): u32 {
    (a + b) % TWO_32
  }
}
