/** Outcomes of fallible operations, and the signed 128-bit amounts they carry. */
module Results {

  datatype Option<+T> = None | Some(value: T)

  datatype Result<+T, +E> = Ok(value: T) | Err(error: E)

  const I128_MIN: int := -0x8000_0000_0000_0000_0000_0000_0000_0000
  const I128_MAX: int := 0x7fff_ffff_ffff_ffff_ffff_ffff_ffff_ffff
  const U64_MAX: int := 0xffff_ffff_ffff_ffff

  type i128 = x: int | I128_MIN <= x <= I128_MAX
  type u64 = x: int | 0 <= x <= U64_MAX

  predicate FitsI128(x: int) {
    I128_MIN <= x <= I128_MAX
  }

  /** When the shared checked addition of amounts refuses: a negative operand, or a sum that does not fit. */
  predicate AddRefused(a: int, b: int) {
    a < 0 || b < 0 || !FitsI128(a + b)
  }

  /** When the shared checked subtraction of amounts refuses: a negative operand or a negative difference. */
  predicate SubRefused(a: int, b: int) {
    a < 0 || b < 0 || b > a
  }

  /** `saturating_add` on u64 ledger times. */
  function SaturatingAddU64(a: u64, b: u64): (r: u64)
    ensures r == a + b || (r == U64_MAX && a + b > U64_MAX)
  {
    if a + b > U64_MAX then U64_MAX else a + b
  }

  function SaturatingSubU64(a: u64, b: u64): (r: u64)
    ensures r + b >= a && (r > 0 ==> r + b == a)
  {
    if a < b then 0 else a - b
  }

  function SaturatingI128(x: int): (r: i128)
    ensures r == if x > I128_MAX then I128_MAX else if x < I128_MIN then I128_MIN else x
  {
    if x > I128_MAX then I128_MAX else if x < I128_MIN then I128_MIN else x
  }
}
