/** The machine integers the modelled code computes with, as bounded mathematical integers. */
module MachineInts {
  import opened Wrappers

  const I64_MIN: int := -0x8000_0000_0000_0000
  const I64_MAX: int := 0x7FFF_FFFF_FFFF_FFFF
  const U16_MAX: int := 0xFFFF
  const U32_MAX: int := 0xFFFF_FFFF
  const U64_MAX: int := 0xFFFF_FFFF_FFFF_FFFF

  type i64 = x: int | I64_MIN <= x <= I64_MAX
  type u16 = x: int | 0 <= x <= U16_MAX
  type u32 = x: int | 0 <= x <= U32_MAX
  type u64 = x: int | 0 <= x <= U64_MAX

  /** The checked operations: a result that does not fit is no result. */
  function CheckedI64(x: int): Option<i64> {
    if I64_MIN <= x <= I64_MAX then Some(x) else None
  }

  /** The saturating operations: a result that does not fit is clamped. */
  function SaturateI64(x: int): i64 {
    if x < I64_MIN then I64_MIN else if x > I64_MAX then I64_MAX else x
  }

  function SaturateU32(x: nat): u32 {
    if x > U32_MAX then U32_MAX else x
  }

  function SaturateU64(x: nat): u64 {
    if x > U64_MAX then U64_MAX else x
  }
}
