/** The fee taken from a payout, rounded so the recipient keeps any fraction. */
module Fee {
  import opened Bits
  import opened Results

  const MAX_FEE_BPS: nat := 1_000
  const BPS_DENOMINATOR: int := 10_000

  /** An intermediate that leaves i128 makes the whole assessment fail. */
  function Checked(x: int): Option<i128> {
    if FitsI128(x) then Some(x) else None
  }

  /** `(net, fee)`, computed on the quotient and the remainder separately. */
  function AssessFee(gross: i128, feeBps: nat): Option<(i128, i128)> {
    if gross < 0 || feeBps > MAX_FEE_BPS then None
    else
      var whole := Checked(gross / BPS_DENOMINATOR * feeBps);
      var part := Checked(gross % BPS_DENOMINATOR * feeBps);
      if whole.None? || part.None? then None
      else
        var fee := Checked(whole.value + part.value / BPS_DENOMINATOR);
        if fee.None? then None
        else
          var net := Checked(gross - fee.value);
          if net.None? then None else Some((net.value, fee.value))
  }

  /** The split computation is exactly floor(gross * bps / 10_000) and never overflows. */
  lemma AssessFeeExact(gross: i128, feeBps: nat)
    requires gross >= 0 && feeBps <= MAX_FEE_BPS
    ensures AssessFee(gross, feeBps) == Some((gross - gross * feeBps / BPS_DENOMINATOR, gross * feeBps / BPS_DENOMINATOR))
    ensures 0 <= gross * feeBps / BPS_DENOMINATOR <= gross / 10
  {
    var d, q, r := BPS_DENOMINATOR, gross / BPS_DENOMINATOR, gross % BPS_DENOMINATOR;
    MulMonotone(r, 0, feeBps);
    MulMonotone(r, feeBps, MAX_FEE_BPS);
    MulMonotone(q, 0, feeBps);
    MulMonotone(q, feeBps, MAX_FEE_BPS);
    SplitFloor(gross, feeBps, d, q, r);
  }

  lemma SplitFloor(gross: int, bps: int, d: int, q: int, r: int)
    requires d > 0 && gross == d * q + r
    ensures gross * bps / d == q * bps + r * bps / d
  {
    var n, m := gross * bps, r * bps;
    assert n == d * (q * bps) + m;
    assert m == d * (m / d) + m % d;
    assert d * (q * bps + m / d) == d * (q * bps) + d * (m / d);
    DivModUnique(n, d, q * bps + m / d, m % d);
  }
}
