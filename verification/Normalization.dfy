/**
 * Conversion between a token's own decimals and the protocol's 7-decimal
 * fixed point, with directional rounding.
 */
module Normalization {
  import opened Bits
  import opened Results
  import opened WideMath

  const PROTOCOL_DECIMALS: nat := 7
  const MAX_SUPPORTED_DECIMALS: nat := 18

  const POW10: seq<int> := [
    1, 10, 100, 1_000, 10_000, 100_000, 1_000_000, 10_000_000, 100_000_000, 1_000_000_000,
    10_000_000_000, 100_000_000_000, 1_000_000_000_000, 10_000_000_000_000, 100_000_000_000_000,
    1_000_000_000_000_000, 10_000_000_000_000_000, 100_000_000_000_000_000, 1_000_000_000_000_000_000
  ]

  datatype NormalizationError = InvalidAmount | UnsupportedDecimals | MathOverflow

  function TenTo(n: nat): (p: nat)
    ensures p > 0
  {
    if n == 0 then 1 else 10 * TenTo(n - 1)
  }

  /** The table holds the powers of ten it claims to hold. */
  lemma {:induction false} TableIsPowers(n: nat)
    requires n <= MAX_SUPPORTED_DECIMALS
    ensures POW10[n] == TenTo(n) > 0
  {
    if n > 0 {
      TableIsPowers(n - 1);
    }
  }

  function CheckedMul(a: i128, b: int): Result<i128, NormalizationError> {
    if FitsI128(a * b) then Ok(a * b) else Err(MathOverflow)
  }

  /** Quotient and remainder, plus one when rounding up leaves something over. */
  function ScaleDown(amount: i128, factor: int, rounding: Rounding): Result<i128, NormalizationError>
    requires amount >= 0 && factor > 0
  {
    var (q, r) := (amount / factor, amount % factor);
    if r > 0 && rounding == Ceil then
      if FitsI128(q + 1) then Ok(q + 1) else Err(MathOverflow)
    else
      DivideShrinks(amount, factor);
      Ok(q)
  }

  function ToProtocolUnits(amount: i128, decimals: nat, rounding: Rounding): Result<i128, NormalizationError> {
    if amount < 0 then Err(InvalidAmount)
    else if amount == 0 then Ok(0)
    else if decimals > MAX_SUPPORTED_DECIMALS then Err(UnsupportedDecimals)
    else if decimals == PROTOCOL_DECIMALS then Ok(amount)
    else if decimals < PROTOCOL_DECIMALS then CheckedMul(amount, POW10[PROTOCOL_DECIMALS - decimals])
    else
      TableIsPowers(decimals - PROTOCOL_DECIMALS);
      ScaleDown(amount, POW10[decimals - PROTOCOL_DECIMALS], rounding)
  }

  function ToTokenUnits(amount: i128, decimals: nat, rounding: Rounding): Result<i128, NormalizationError> {
    if amount < 0 then Err(InvalidAmount)
    else if amount == 0 then Ok(0)
    else if decimals > MAX_SUPPORTED_DECIMALS then Err(UnsupportedDecimals)
    else if decimals == PROTOCOL_DECIMALS then Ok(amount)
    else if decimals > PROTOCOL_DECIMALS then CheckedMul(amount, POW10[decimals - PROTOCOL_DECIMALS])
    else
      TableIsPowers(PROTOCOL_DECIMALS - decimals);
      ScaleDown(amount, POW10[PROTOCOL_DECIMALS - decimals], rounding)
  }

  function NormalizeInflow(amount: i128, decimals: nat): Result<i128, NormalizationError> {
    ToProtocolUnits(amount, decimals, Ceil)
  }

  function NormalizeOutflow(amount: i128, decimals: nat): Result<i128, NormalizationError> {
    ToTokenUnits(amount, decimals, Floor)
  }

  /** Reads a conversion as a number, with overflow as infinity. */
  predicate AtMost(r: Result<i128, NormalizationError>, bound: int) {
    r.Ok? && r.value <= bound
  }

  predicate AtLeast(r: Result<i128, NormalizationError>, bound: int) {
    r == Err(MathOverflow) || (r.Ok? && bound <= r.value)
  }

  /** What each conversion computes, over unbounded integers. */
  lemma ConversionMeaning(x: i128, decimals: nat, rounding: Rounding)
    requires x >= 0 && decimals <= MAX_SUPPORTED_DECIMALS
    ensures decimals <= PROTOCOL_DECIMALS ==>
              && ToProtocolUnits(x, decimals, rounding) == CheckedMul(x, TenTo(PROTOCOL_DECIMALS - decimals))
              && ToTokenUnits(x, decimals, rounding) == Ok(Rounded(x, TenTo(PROTOCOL_DECIMALS - decimals), rounding))
    ensures decimals >= PROTOCOL_DECIMALS ==>
              && ToTokenUnits(x, decimals, rounding) == CheckedMul(x, TenTo(decimals - PROTOCOL_DECIMALS))
              && ToProtocolUnits(x, decimals, rounding) == Ok(Rounded(x, TenTo(decimals - PROTOCOL_DECIMALS), rounding))
  {
    var n := if decimals <= PROTOCOL_DECIMALS then PROTOCOL_DECIMALS - decimals else decimals - PROTOCOL_DECIMALS;
    var f := TenTo(n);
    TableIsPowers(n);
    ScalingFits(x, f, rounding);
    if n == 0 {
      assert f == 1;
    }
  }

  lemma ScalingFits(x: i128, f: int, rounding: Rounding)
    requires x >= 0 && f > 0
    ensures 0 <= Rounded(x, f, rounding) <= x
    ensures ScaleDown(x, f, rounding) == Ok(Rounded(x, f, rounding))
    ensures f == 1 ==> Rounded(x, f, rounding) == x
  {
    DivideShrinks(x, f);
    MulMonotone(x, 1, f);
    RoundedMeaning(x, f, x);
  }

  /**
   * The Galois connection behind the rounding policy: what comes in is worth
   * at most p protocol units exactly when it is at most what p would pay out.
   */
  lemma InflowOutflowGalois(a: i128, p: i128, decimals: nat)
    requires a >= 0 && p >= 0 && decimals <= MAX_SUPPORTED_DECIMALS
    ensures AtMost(NormalizeInflow(a, decimals), p) <==> AtLeast(NormalizeOutflow(p, decimals), a)
  {
    ConversionMeaning(a, decimals, Ceil);
    ConversionMeaning(p, decimals, Floor);
    if decimals <= PROTOCOL_DECIMALS {
      var f := TenTo(PROTOCOL_DECIMALS - decimals);
      MulMonotone(a, 0, f);
      RoundedMeaning(p, f, a);
    } else {
      var f := TenTo(decimals - PROTOCOL_DECIMALS);
      MulMonotone(p, 0, f);
      RoundedMeaning(a, f, p);
    }
  }

  /** Larger deposits never count for less, larger payouts never pay less. */
  lemma ConversionsMonotone(x: i128, y: i128, decimals: nat)
    requires 0 <= x <= y && decimals <= MAX_SUPPORTED_DECIMALS
    ensures NormalizeInflow(y, decimals).Ok? ==>
              AtMost(NormalizeInflow(x, decimals), NormalizeInflow(y, decimals).value)
    ensures NormalizeOutflow(x, decimals).Ok? ==>
              AtLeast(NormalizeOutflow(y, decimals), NormalizeOutflow(x, decimals).value)
  {
    if NormalizeInflow(y, decimals).Ok? {
      var p := NonNegativeResult(y, decimals);
      InflowOutflowGalois(y, p, decimals);
      InflowOutflowGalois(x, p, decimals);
    }
    if NormalizeOutflow(x, decimals).Ok? {
      var a := NonNegativePayout(x, decimals);
      InflowOutflowGalois(a, x, decimals);
      InflowOutflowGalois(a, y, decimals);
    }
  }

  lemma NonNegativeResult(a: i128, decimals: nat) returns (p: i128)
    requires a >= 0 && decimals <= MAX_SUPPORTED_DECIMALS && NormalizeInflow(a, decimals).Ok?
    ensures p == NormalizeInflow(a, decimals).value && p >= 0
  {
    p := NormalizeInflow(a, decimals).value;
    if decimals < PROTOCOL_DECIMALS && a > 0 {
      TableIsPowers(PROTOCOL_DECIMALS - decimals);
      MulMonotone(a, 0, POW10[PROTOCOL_DECIMALS - decimals]);
    }
  }

  lemma NonNegativePayout(p: i128, decimals: nat) returns (a: i128)
    requires p >= 0 && decimals <= MAX_SUPPORTED_DECIMALS && NormalizeOutflow(p, decimals).Ok?
    ensures a == NormalizeOutflow(p, decimals).value && a >= 0
  {
    a := NormalizeOutflow(p, decimals).value;
    if decimals > PROTOCOL_DECIMALS && p > 0 {
      TableIsPowers(decimals - PROTOCOL_DECIMALS);
      MulMonotone(p, 0, POW10[decimals - PROTOCOL_DECIMALS]);
    }
  }

  lemma UpThenDown(x: int, f: int, rounding: Rounding)
    requires f > 0
    ensures Rounded(x * f, f, rounding) == x
  {
    DivModUnique(x * f, f, x, 0);
  }

  lemma DownThenUp(x: int, f: int)
    requires f > 0
    ensures x <= Rounded(x, f, Ceil) * f < x + f
    ensures x - f < Rounded(x, f, Floor) * f <= x
  {
    var q, r := x / f, x % f;
    assert x == f * q + r;
    assert (q + 1) * f == f * q + f;
  }

  /**
   * Depositing and paying straight back never loses the depositor anything and
   * never hands out more than the deposit was credited for: exact for tokens
   * with at most 7 decimals, at most one protocol unit's worth otherwise.
   */
  lemma DepositRoundTrip(a: i128, decimals: nat)
    requires a >= 0 && decimals <= MAX_SUPPORTED_DECIMALS && NormalizeInflow(a, decimals).Ok?
    ensures NormalizeInflow(a, decimals).value >= 0
    ensures var back := NormalizeOutflow(NormalizeInflow(a, decimals).value, decimals);
            && AtLeast(back, a)
            && (decimals <= PROTOCOL_DECIMALS ==> back == Ok(a))
            && (decimals > PROTOCOL_DECIMALS && back.Ok? ==> back.value < a + TenTo(decimals - PROTOCOL_DECIMALS))
  {
    var p := NonNegativeResult(a, decimals);
    InflowOutflowGalois(a, p, decimals);
    ConversionMeaning(a, decimals, Ceil);
    ConversionMeaning(p, decimals, Floor);
    if decimals <= PROTOCOL_DECIMALS {
      UpThenDown(a, TenTo(PROTOCOL_DECIMALS - decimals), Floor);
    } else {
      DownThenUp(a, TenTo(decimals - PROTOCOL_DECIMALS));
    }
  }

  /** Paying out and depositing the payment never credits more than was paid for. */
  lemma PayoutRoundTrip(p: i128, decimals: nat)
    requires p >= 0 && decimals <= MAX_SUPPORTED_DECIMALS && NormalizeOutflow(p, decimals).Ok?
    ensures NormalizeOutflow(p, decimals).value >= 0
    ensures var back := NormalizeInflow(NormalizeOutflow(p, decimals).value, decimals);
            && AtMost(back, p)
            && (decimals >= PROTOCOL_DECIMALS ==> back == Ok(p))
            && (decimals < PROTOCOL_DECIMALS ==> p - TenTo(PROTOCOL_DECIMALS - decimals) < back.value)
  {
    var a := NonNegativePayout(p, decimals);
    InflowOutflowGalois(a, p, decimals);
    ConversionMeaning(p, decimals, Floor);
    ConversionMeaning(a, decimals, Ceil);
    if decimals >= PROTOCOL_DECIMALS {
      UpThenDown(p, TenTo(decimals - PROTOCOL_DECIMALS), Ceil);
    } else {
      DownThenUp(p, TenTo(PROTOCOL_DECIMALS - decimals));
    }
  }
}
