/** The grants crate's own converter between any two decimal counts. */
module Amounts {
  import opened Bits
  import opened Results
  import opened WideMath
  import Normalization

  datatype AmountError = UnsupportedDecimals | Overflow

  /** Division truncates toward zero, as the machine operator does. */
  function Truncate(amount: int, factor: int): int
    requires factor > 0
  {
    if amount >= 0 then amount / factor else -(-amount / factor)
  }

  function Convert(amount: i128, from: nat, to: nat): Result<i128, AmountError> {
    if from > Normalization.MAX_SUPPORTED_DECIMALS || to > Normalization.MAX_SUPPORTED_DECIMALS then
      Err(UnsupportedDecimals)
    else if from == to then Ok(amount)
    else if from < to then
      var scaled := amount * Normalization.TenTo(to - from);
      if FitsI128(scaled) then Ok(scaled) else Err(AmountError.Overflow)
    else
      TruncateFits(amount, Normalization.TenTo(from - to));
      Ok(Truncate(amount, Normalization.TenTo(from - to)))
  }

  lemma TruncateFits(amount: i128, factor: int)
    requires factor > 0
    ensures FitsI128(Truncate(amount, factor))
  {
    var magnitude: int := if amount >= 0 then amount else 0 - amount;
    DivideShrinks(magnitude, factor);
  }

  /** Renames the errors of the other converter. */
  function Lift(r: Result<i128, Normalization.NormalizationError>): Result<i128, AmountError> {
    match r
    case Ok(v) => Ok(v)
    case Err(MathOverflow) => Err(AmountError.Overflow)
    case Err(_) => Err(UnsupportedDecimals)
  }

  /**
   * On non-negative amounts the two converters agree, except on one family of
   * inputs: a zero amount of a token with more than 18 decimals, which only the
   * normalizer accepts because it returns before looking at the decimals.
   */
  lemma ConvertersAgree(amount: i128, decimals: nat)
    requires amount >= 0
    ensures (Convert(amount, decimals, 7) == Lift(Normalization.ToProtocolUnits(amount, decimals, Floor)))
       <==> !(amount == 0 && decimals > 18)
    ensures (Convert(amount, 7, decimals) == Lift(Normalization.ToTokenUnits(amount, decimals, Floor)))
       <==> !(amount == 0 && decimals > 18)
  {
    if decimals <= 18 {
      Normalization.ConversionMeaning(amount, decimals, Floor);
    }
  }

  /** Converting to fewer decimals and back never grows the magnitude; to more and back is exact. */
  lemma ConvertRoundTrip(amount: i128, from: nat, to: nat)
    requires from <= 18 && to <= 18 && Convert(amount, from, to).Ok?
    ensures var back := Convert(Convert(amount, from, to).value, to, from);
            && back.Ok?
            && (from <= to ==> back.value == amount)
            && (amount >= 0 ==> 0 <= back.value <= amount)
            && (amount <= 0 ==> amount <= back.value <= 0)
            && (from > to ==> amount < back.value + Normalization.TenTo(from - to)
                              && back.value < amount + Normalization.TenTo(from - to))
  {
    if from < to {
      TruncateExact(amount, Normalization.TenTo(to - from));
    } else if from > to {
      TruncateLoss(amount, Normalization.TenTo(from - to));
    }
  }

  lemma TruncateExact(x: int, f: int)
    requires f > 0
    ensures Truncate(x * f, f) == x
  {
    if x >= 0 {
      MulMonotone(f, 0, x);
      DivModUnique(x * f, f, x, 0);
    } else {
      MulMonotone(f, x, -1);
      assert -(x * f) == f * (-x);
      DivModUnique(-(x * f), f, -x, 0);
    }
  }

  lemma TruncateLoss(x: int, f: int)
    requires f > 0
    ensures x >= 0 ==> 0 <= Truncate(x, f) * f <= x < Truncate(x, f) * f + f
    ensures x <= 0 ==> x <= Truncate(x, f) * f <= 0 && Truncate(x, f) * f < x + f
  {
    var m := if x >= 0 then x else -x;
    var q := m / f;
    assert m == f * q + m % f;
    MulMonotone(f, 0, q);
    assert (-q) * f == -(f * q);
  }
}
