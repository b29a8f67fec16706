/** Machine integer ranges and the small result types shared by every module. */
module Base {

  datatype Option<+T> = None | Some(value: T)

  datatype Result<+T, +E> = Ok(value: T) | Err(error: E)

  /** `core::cmp::Ordering`. */
  datatype Ordering = Less | Equal | Greater
  {
    /** Lexicographic chaining of two comparisons. */
    function Then(next: Ordering): Ordering {
      if this == Equal then next else this
    }
  }

  type byte = x: int | 0 <= x < 0x100
  type uint16 = x: int | 0 <= x < 0x1_0000
  type int8 = x: int | -0x80 <= x < 0x80

  const U16_MAX: int := 0xFFFF
  const U64_MAX: int := 0xFFFF_FFFF_FFFF_FFFF
  const I64_MIN: int := -0x8000_0000_0000_0000
  const I64_MAX: int := 0x7FFF_FFFF_FFFF_FFFF

  function CompareInt(a: int, b: int): Ordering {
    if a < b then Less else if a == b then Equal else Greater
  }

  /** `u16::saturating_add(1)`. */
  function SaturatingInc(x: uint16): uint16 {
    if x == U16_MAX then x else x + 1
  }

  /** `u64::saturating_mul`. */
  function SaturatingMul(x: nat, y: nat): nat {
    if x * y > U64_MAX then U64_MAX else x * y
  }

  /** Rust's integer division by two, which truncates toward zero. */
  function TruncatedHalf(x: int): int {
    if x < 0 then -((-x) / 2) else x / 2
  }

  function Abs(x: int): nat {
    if x < 0 then -x else x
  }
}
