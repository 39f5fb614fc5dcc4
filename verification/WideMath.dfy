/**
 * Exact money arithmetic: the 128x128 -> 256 bit product on 64-bit halves, the
 * bit-serial 256/128 division, and mul-div with explicit rounding.
 */
module WideMath {
  import opened Bits
  import opened Results

  datatype MathError = Negative | DivisionByZero | Overflow | NoRecipients | InvalidRatio

  datatype Rounding = Floor | Ceil

  /** The cut party's floored share and everything else. */
  datatype Split = Split(cut: i128, rest: i128)

  const BPS_DENOM: i128 := 10_000

  // ---------------------------------------------------------------------
  // Wide product
  // ---------------------------------------------------------------------

  /** The schoolbook product of two two-digit numbers in base b, with its carries. */
  lemma CarryChain(b: int, aHi: int, aLo: int, bHi: int, bLo: int, mid: int, hi: int)
    requires b > 0 && 0 <= aHi < b && 0 <= aLo < b && 0 <= bHi < b && 0 <= bLo < b
    requires mid == aLo * bLo / b + aLo * bHi % b + aHi * bLo % b
    requires hi == aHi * bHi + aLo * bHi / b + aHi * bLo / b + mid / b
    ensures hi * (b * b) + ((mid % b) * b + aLo * bLo % b) == (aHi * b + aLo) * (bHi * b + bLo)
  {
    var ll, lh, hl, hh := aLo * bLo, aLo * bHi, aHi * bLo, aHi * bHi;
    Digits(ll, b);
    Digits(lh, b);
    Digits(hl, b);
    Digits(mid, b);
    SumDigits(b, ll, ll / b, ll % b, lh, lh / b, lh % b, hl, hl / b, hl % b, hh, mid, mid / b, mid % b);
    ExpandProduct(aHi, aLo, bHi, bLo, b);
  }

  lemma Digits(n: int, b: int)
    requires b > 0
    ensures n == n / b * b + n % b
  {
  }

  /** Carrying `mid` into the high word loses nothing. */
  lemma SumDigits(b: int, ll: int, ll1: int, ll0: int, lh: int, lh1: int, lh0: int, hl: int, hl1: int, hl0: int,
                  hh: int, mid: int, mid1: int, mid0: int)
    requires ll == ll1 * b + ll0 && lh == lh1 * b + lh0 && hl == hl1 * b + hl0 && mid == mid1 * b + mid0
    requires mid == ll1 + lh0 + hl0
    ensures (hh + lh1 + hl1 + mid1) * (b * b) + (mid0 * b + ll0) == hh * (b * b) + lh * b + hl * b + ll
  {
    Distribute4(hh, lh1, hl1, mid1, b * b);
    Regroup(mid1, mid0, b);
    Regroup(lh1, lh0, b);
    Regroup(hl1, hl0, b);
    assert mid * b == ll1 * b + lh0 * b + hl0 * b;
  }

  lemma Distribute4(w: int, x: int, y: int, z: int, f: int)
    ensures (w + x + y + z) * f == w * f + x * f + y * f + z * f
  {
  }

  lemma Regroup(q: int, r: int, b: int)
    ensures q * (b * b) + r * b == (q * b + r) * b
  {
  }

  lemma ExpandProduct(aHi: int, aLo: int, bHi: int, bLo: int, b: int)
    ensures (aHi * b + aLo) * (bHi * b + bLo)
         == (aHi * bHi) * (b * b) + (aLo * bHi) * b + (aHi * bLo) * b + aLo * bLo
  {
    calc {
      (aHi * b + aLo) * (bHi * b + bLo);
      (aHi * b) * (bHi * b) + (aHi * b) * bLo + aLo * (bHi * b) + aLo * bLo;
      { assert (aHi * b) * (bHi * b) == (aHi * bHi) * (b * b); }
      (aHi * bHi) * (b * b) + (aHi * bLo) * b + (aLo * bHi) * b + aLo * bLo;
    }
  }

  /** Products of machine words and of half words stay within two words and one word. */
  lemma ProductBound(x: int, y: int, b: int)
    requires 0 <= x < b && 0 <= y < b
    ensures 0 <= x * y <= (b - 1) * (b - 1)
  {
    MulMonotone(x, 0, y);
    MulMonotone(x, y, b - 1);
    MulMonotone(b - 1, x, b - 1);
  }

  /** A high word above 2^128 would make the whole exceed any product of words. */
  lemma HighWordBound(hi: int, lo: int, p: int, b: int)
    requires b > 0 && 0 <= lo && 0 <= p <= (b - 1) * (b - 1) && hi * b + lo == p
    ensures hi < b
  {
    assert (b - 1) * (b - 1) == b * b - 2 * b + 1;
    if hi >= b {
      MulMonotone(b, b, hi);
    }
  }

  function MulWide(a: u128, b: u128): (r: (u128, u128))
    ensures r.0 as int * TWO_128 + r.1 as int == a as int * b as int
  {
    var (aHi, aLo, bHi, bLo) := (High64(a), Low64(a), High64(b), Low64(b));
    ProductBound(aLo as int, bLo as int, TWO_64);
    ProductBound(aLo as int, bHi as int, TWO_64);
    ProductBound(aHi as int, bLo as int, TWO_64);
    ProductBound(aHi as int, bHi as int, TWO_64);
    var ll := aLo * bLo;
    var lh := aLo * bHi;
    var hl := aHi * bLo;
    var hh := aHi * bHi;
    var mid := High64(ll) + Low64(lh) + Low64(hl);
    var lo := BitOr(Low64(ll), Raise64(mid));
    JoinHalves(ll, mid, lo);
    MulWideHigh(a, b, aHi, aLo, bHi, bLo, mid, lo);
    var hi := hh + High64(lh) + High64(hl) + High64(mid);
    (hi, lo)
  }

  /** `(ll & MASK) | (mid << 64)` puts the low half of `mid` above the low half of `ll`. */
  lemma JoinHalves(ll: u128, mid: u128, lo: u128)
    requires lo == BitOr(Low64(ll), Raise64(mid))
    ensures lo as int == (mid as int % TWO_64) * TWO_64 + ll as int % TWO_64
  {
    var half, word := WordBits();
    var m := mid as int;
    DivModUnique(m * TWO_64, TWO_128, m / TWO_64, (m % TWO_64) * TWO_64);
    MultipleHasNoRemainder(m % TWO_64, TWO_64);
    OrDisjoint(ll as int % TWO_64, (m % TWO_64) * TWO_64, half);
  }

  lemma MulWideHigh(a: u128, b: u128, aHi: u128, aLo: u128, bHi: u128, bLo: u128, mid: u128, lo: u128)
    requires aHi as int == a as int / TWO_64 && aLo as int == a as int % TWO_64
    requires bHi as int == b as int / TWO_64 && bLo as int == b as int % TWO_64
    requires mid as int == aLo as int * bLo as int / TWO_64 + aLo as int * bHi as int % TWO_64
                         + aHi as int * bLo as int % TWO_64
    requires lo as int == (mid as int % TWO_64) * TWO_64 + aLo as int * bLo as int % TWO_64
    ensures var hi := aHi as int * bHi as int + aLo as int * bHi as int / TWO_64
                    + aHi as int * bLo as int / TWO_64 + mid as int / TWO_64;
            0 <= hi < TWO_128 && hi * TWO_128 + lo as int == a as int * b as int
  {
    var hi := aHi as int * bHi as int + aLo as int * bHi as int / TWO_64
            + aHi as int * bLo as int / TWO_64 + mid as int / TWO_64;
    CarryChain(TWO_64, aHi as int, aLo as int, bHi as int, bLo as int, mid as int, hi);
    ProductBound(a as int, b as int, TWO_128);
    ProductBound(aHi as int, bHi as int, TWO_64);
    ProductBound(aLo as int, bHi as int, TWO_64);
    ProductBound(aHi as int, bLo as int, TWO_64);
    HighWordBound(hi, lo as int, a as int * b as int, TWO_128);
  }

  // ---------------------------------------------------------------------
  // Wide division
  // ---------------------------------------------------------------------

  /** One round of bit-serial division on unbounded integers; `p` is the weight of the bit. */
  lemma DivisionRound(q: int, d: int, r: int, p: int, l: int, n: int)
    requires p > 0 && l >= 0 && 0 <= r < d && q >= 0 && q % (2 * p) == 0
    requires n == q * d + r * (2 * p) + l % (2 * p)
    ensures var t := 2 * r + (l / p) % 2;
            && n == q * d + t * p + l % p
            && n == (q + p) * d + (t - d) * p + l % p
    ensures q % p == 0 && (q + p) % p == 0
  {
    var bit := (l / p) % 2;
    LowBits(l, p);
    ShiftedRound(q * d, r, p, bit, d, l % p);
    assert (q + p) * d == q * d + p * d;
    KeepsWeight(q, p);
  }

  /** The bits below weight 2p are the bit of weight p and the bits below it. */
  lemma LowBits(l: int, p: int)
    requires p > 0 && l >= 0
    ensures l % (2 * p) == (l / p) % 2 * p + l % p
  {
    var bit, m, low := (l / p) % 2, (l / p) / 2, l % p;
    SplitTwice(l, p, m, bit, low);
    DivModUnique(l, 2 * p, m, bit * p + low);
  }

  lemma SplitTwice(l: int, p: int, m: int, bit: int, low: int)
    requires p > 0 && 0 <= bit <= 1 && 0 <= low < p && l == p * (2 * m + bit) + low
    ensures l == (2 * p) * m + (bit * p + low) && 0 <= bit * p + low < 2 * p
  {
    assert p * (2 * m + bit) == (2 * p) * m + bit * p;
  }

  lemma ShiftedRound(qd: int, r: int, p: int, bit: int, d: int, low: int)
    ensures qd + r * (2 * p) + (bit * p + low) == qd + (2 * r + bit) * p + low
    ensures qd + (2 * r + bit) * p + low == qd + p * d + (2 * r + bit - d) * p + low
  {
  }

  lemma KeepsWeight(q: int, p: int)
    requires p > 0 && q >= 0 && q % (2 * p) == 0
    ensures q % p == 0 && (q + p) % p == 0
  {
    var k := q / (2 * p);
    assert q == p * (2 * k);
    MultipleHasNoRemainder(2 * k, p);
    MultipleHasNoRemainder(2 * k + 1, p);
    assert p * (2 * k + 1) == q + p;
  }

  /** The shifted-in remainder, with the bit lost above 2^128 accounted for by the carry. */
  lemma ShiftInBit(rem: u128, bit: u128)
    requires bit <= 1
    ensures TopBit(rem) <= 1
    ensures BitOr(ShiftLeft(rem), bit) as int + TopBit(rem) as int * TWO_128 == 2 * rem as int + bit as int
  {
    DropTopBit(rem as int, TWO_128 / 2, TWO_128);
    OrDisjointSwap(ShiftLeft(rem) as int, bit as int, 1);
  }

  lemma OrDisjointSwap(a: nat, b: nat, k: nat)
    requires b < Pow2(k) && a % Pow2(k) == 0
    ensures Or(a, b) == a + b
  {
    OrCommutes(a, b);
    OrDisjoint(b, a, k);
  }

  lemma OrCommutes(a: nat, b: nat)
    ensures Or(a, b) == Or(b, a)
  {
  }

  lemma DropTopBit(x: int, half: int, w: int)
    requires half > 0 && w == 2 * half && 0 <= x < w
    ensures 0 <= x / half <= 1
    ensures (x * 2) % w + (x / half) * w == 2 * x
    ensures ((x * 2) % w) % 2 == 0
  {
    if x < half {
      DivModUnique(x, half, 0, x);
      DivModUnique(2 * x, w, 0, 2 * x);
    } else {
      DivModUnique(x, half, 1, x - half);
      DivModUnique(2 * x, w, 1, 2 * (x - half));
    }
  }

  /** `quot |= 1 << i` on a quotient whose low bits are still clear. */
  lemma SetQuotientBit(quot: u128, i: nat)
    requires i < 128 && quot as int % Pow2(i + 1) == 0
    ensures BitOr(quot, OneBit(i)) as int == quot as int + Pow2(i)
  {
    OrDisjointSwap(quot as int, Pow2(i), i + 1);
  }

  method DivWide(hi: u128, lo: u128, d: u128) returns (quot: u128, rem: u128)
    requires hi < d
    ensures quot as int * d as int + rem as int == hi as int * TWO_128 + lo as int
    ensures rem < d
  {
    ghost var n := hi as int * TWO_128 + lo as int;
    rem := hi;
    quot := 0;
    ghost var half, word := WordBits();
    DivModUnique(lo as int, TWO_128, 0, lo as int);
    DivModUnique(0, TWO_128, 0, 0);
    var i: nat := WORD_BITS;
    while i > 0
      invariant i <= WORD_BITS
      invariant rem < d
      invariant quot as int % Pow2(i) == 0
      invariant quot as int * d as int + rem as int * Pow2(i) + lo as int % Pow2(i) == n
    {
      i := i - 1;
      ghost var q, t, p := quot as int, 2 * rem as int + (lo as int / Pow2(i)) % 2, Pow2(i);
      DivisionRound(q, d as int, rem as int, p, lo as int, n);
      var carry := TopBit(rem);
      var bit := BitAt(lo, i);
      ShiftInBit(rem, bit);
      rem := BitOr(ShiftLeft(rem), bit);
      if carry == 1 || rem >= d {
        rem := WrappingSub(rem, d);
        SetQuotientBit(quot, i);
        quot := BitOr(quot, OneBit(i));
        assert quot as int == q + p && rem as int == t - d as int;
      } else {
        assert rem as int == t;
      }
    }
  }

  /** `(floor(a * b / c), (a * b) mod c)`; refused exactly when the quotient needs more than 128 bits. */
  method MulDivRem(a: u128, b: u128, c: u128) returns (r: Result<(u128, u128), MathError>)
    ensures c == 0 ==> r == Err(DivisionByZero)
    ensures c > 0 && (a as int * b as int) / c as int >= TWO_128 ==> r == Err(Overflow)
    ensures c > 0 && (a as int * b as int) / c as int < TWO_128 ==>
              && r.Ok?
              && r.value.0 as int == (a as int * b as int) / c as int
              && r.value.1 as int == (a as int * b as int) % c as int
  {
    if c == 0 {
      return Err(DivisionByZero);
    }
    var (hi, lo) := MulWide(a, b);
    QuotientSize(hi as int, lo as int, c as int, a as int * b as int);
    if hi == 0 {
      DivideShrinks(lo as int, c as int);
      return Ok((lo / c, lo % c));
    }
    if hi >= c {
      return Err(Overflow);
    }
    var q, rem := DivWide(hi, lo, c);
    assert q as int * c as int == c as int * q as int;
    DivModUnique(a as int * b as int, c as int, q as int, rem as int);
    return Ok((q, rem));
  }

  /** The quotient fits in one word exactly when the high word is below the divisor. */
  lemma QuotientSize(hi: int, lo: int, c: int, n: int)
    requires 0 <= hi && 0 <= lo < TWO_128 && c > 0 && n == hi * TWO_128 + lo
    ensures hi < c <==> n / c < TWO_128
  {
    var q := n / c;
    assert n == c * q + n % c;
    if hi < c {
      MulMonotone(TWO_128, hi + 1, c);
      if q >= TWO_128 {
        MulMonotone(c, TWO_128, q);
      }
    } else {
      MulMonotone(TWO_128, c, hi);
      if q < TWO_128 {
        MulMonotone(c, q + 1, TWO_128);
      }
    }
  }

  // ---------------------------------------------------------------------
  // Rounded multiply-divide and the splits built on it
  // ---------------------------------------------------------------------

  /** The mathematical quotient the caller asks for. */
  function Rounded(n: int, c: int, rounding: Rounding): int
    requires c > 0
  {
    if rounding.Ceil? && n % c > 0 then n / c + 1 else n / c
  }

  /** Floor is the largest multiple below, Ceil the smallest multiple above. */
  lemma RoundedMeaning(n: int, c: int, k: int)
    requires c > 0
    ensures k <= Rounded(n, c, Floor) <==> k * c <= n
    ensures Rounded(n, c, Ceil) <= k <==> n <= k * c
  {
    var q, r := n / c, n % c;
    assert n == c * q + r;
    if k <= q { MulMonotone(c, k, q); } else { MulMonotone(c, q + 1, k); }
    if q + 1 <= k { MulMonotone(c, q + 1, k); } else { MulMonotone(c, k, q); }
  }

  method MulDiv(a: i128, b: i128, c: i128, rounding: Rounding) returns (r: Result<i128, MathError>)
    ensures r == Err(Negative) <==> a < 0 || b < 0 || c < 0
    ensures r == Err(DivisionByZero) <==> a >= 0 && b >= 0 && c == 0
    ensures a >= 0 && b >= 0 && c > 0 ==>
              r == if Rounded(a * b, c, rounding) <= I128_MAX then Ok(Rounded(a * b, c, rounding)) else Err(Overflow)
  {
    if a < 0 || b < 0 || c < 0 {
      return Err(Negative);
    }
    if c == 0 {
      return Err(DivisionByZero);
    }
    var qr := MulDivRem(a as u128, b as u128, c as u128);
    if qr.Err? {
      return Err(qr.error);
    }
    var adjusted := qr.value.0;
    match rounding {
      case Floor =>
      case Ceil =>
        if qr.value.1 > 0 {
          if adjusted as int + 1 >= TWO_128 {
            return Err(Overflow);
          }
          adjusted := adjusted + 1;
        }
    }
    MulMonotone(a, 0, b);
    DivideShrinks(a * b, c);
    if adjusted as int > I128_MAX {
      return Err(Overflow);
    }
    return Ok(adjusted as int);
  }

  /** A ratio of at most one never overflows: the floored cut and the rest always add up. */
  method SplitRatio(amount: i128, numerator: i128, denominator: i128) returns (r: Result<Split, MathError>)
    ensures r == Err(DivisionByZero) <==> denominator <= 0
    ensures r == Err(InvalidRatio) <==> denominator > 0 && !(0 <= numerator <= denominator)
    ensures denominator > 0 && 0 <= numerator <= denominator ==>
              if amount < 0 then r == Err(Negative)
              else && r.Ok?
                   && r.value.cut + r.value.rest == amount
                   && 0 <= r.value.cut <= amount
                   && r.value.cut * denominator <= amount * numerator < (r.value.cut + 1) * denominator
  {
    if denominator <= 0 {
      return Err(DivisionByZero);
    }
    if numerator < 0 || numerator > denominator {
      return Err(InvalidRatio);
    }
    var cut := MulDiv(amount, numerator, denominator, Floor);
    if amount >= 0 {
      var n := amount * numerator;
      RoundedMeaning(n, denominator, Rounded(n, denominator, Floor));
      RoundedMeaning(n, denominator, Rounded(n, denominator, Floor) + 1);
      RoundedMeaning(n, denominator, 0);
      MulMonotone(amount, 0, numerator);
      MulMonotone(amount, numerator, denominator);
      RoundedMeaning(n, denominator, amount + 1);
      assert (amount + 1) * denominator == amount * denominator + denominator;
    }
    if cut.Err? {
      return Err(cut.error);
    }
    return Ok(Split(cut.value, amount - cut.value));
  }

  method SplitBps(amount: i128, bps: i128) returns (r: Result<Split, MathError>)
    ensures r == Err(InvalidRatio) <==> !(0 <= bps <= BPS_DENOM)
    ensures 0 <= bps <= BPS_DENOM ==>
              if amount < 0 then r == Err(Negative)
              else && r.Ok?
                   && r.value.cut == amount * bps / BPS_DENOM
                   && 0 <= r.value.cut <= amount
                   && r.value.cut + r.value.rest == amount
  {
    if !(0 <= bps <= BPS_DENOM) {
      return Err(InvalidRatio);
    }
    r := SplitRatio(amount, bps, BPS_DENOM);
    if amount >= 0 {
      DivModUnique(amount * bps, BPS_DENOM, r.value.cut, amount * bps - r.value.cut * BPS_DENOM);
    }
  }

  method ApplyBps(amount: i128, bps: nat, rounding: Rounding) returns (r: Result<i128, MathError>)
    ensures r == Err(InvalidRatio) <==> bps > 10_000
    ensures bps <= 10_000 ==>
              r == if amount < 0 then Err(Negative) else Ok(Rounded(amount * bps, BPS_DENOM, rounding))
  {
    if bps > 10_000 {
      return Err(InvalidRatio);
    }
    r := MulDiv(amount, bps, BPS_DENOM, rounding);
    if amount >= 0 {
      MulMonotone(amount, bps, 10_000);
      RoundedMeaning(amount * bps, BPS_DENOM, amount);
      RoundedMeaning(amount * bps, BPS_DENOM, amount + 1);
    }
  }

  /** The ratio always fits the 0..10_000 range, so the final narrowing never fails. */
  method RatioBps(part: i128, whole: i128, rounding: Rounding) returns (r: Result<nat, MathError>)
    ensures r == Err(DivisionByZero) <==> whole <= 0
    ensures r == Err(Negative) <==> whole > 0 && part < 0
    ensures r == Err(InvalidRatio) <==> 0 < whole < part
    ensures 0 <= part <= whole && whole > 0 ==>
              r == Ok(Rounded(part * BPS_DENOM, whole, rounding)) && r.value <= 10_000
  {
    if whole <= 0 {
      return Err(DivisionByZero);
    }
    if part < 0 {
      return Err(Negative);
    }
    if part > whole {
      return Err(InvalidRatio);
    }
    var n := part * BPS_DENOM;
    RoundedMeaning(n, whole, 0);
    RoundedMeaning(n, whole, 10_000);
    RoundedMeaning(n, whole, 10_001);
    var bps := MulDiv(part, BPS_DENOM, whole, rounding);
    return Ok(bps.value);
  }

  /**
   * Measuring a part in basis points and applying that rate to the whole never
   * overshoots the part when both steps floor and never undershoots it when
   * both steps round up; either way the miss is at most whole / 10_000 plus one unit.
   */
  lemma RatioThenApply(part: int, whole: int)
    requires 0 <= part <= whole && whole > 0
    ensures var down := Rounded(whole * Rounded(part * BPS_DENOM, whole, Floor), BPS_DENOM, Floor);
            down <= part && (part - down) * BPS_DENOM < whole + BPS_DENOM
    ensures var up := Rounded(whole * Rounded(part * BPS_DENOM, whole, Ceil), BPS_DENOM, Ceil);
            part <= up && (up - part) * BPS_DENOM < whole + BPS_DENOM
  {
    var n := part * BPS_DENOM;
    var f, c := Rounded(n, whole, Floor), Rounded(n, whole, Ceil);
    RoundedMeaning(n, whole, f);
    RoundedMeaning(n, whole, f + 1);
    RoundedMeaning(n, whole, c);
    RoundedMeaning(n, whole, c - 1);
    assert (f + 1) * whole == whole * f + whole && (c - 1) * whole == whole * c - whole;
    var down, up := Rounded(whole * f, BPS_DENOM, Floor), Rounded(whole * c, BPS_DENOM, Ceil);
    RoundedMeaning(whole * f, BPS_DENOM, down);
    RoundedMeaning(whole * f, BPS_DENOM, down + 1);
    RoundedMeaning(whole * c, BPS_DENOM, up);
    RoundedMeaning(whole * c, BPS_DENOM, up - 1);
  }
}
