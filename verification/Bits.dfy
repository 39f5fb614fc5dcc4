/** Bit operations on naturals and on the 128-bit unsigned machine word. */
module Bits {

  const TWO_64: nat := 0x1_0000_0000_0000_0000
  const TWO_128: nat := 0x1_0000_0000_0000_0000_0000_0000_0000_0000

  const WORD_BITS: nat := 128

  newtype u128 = x: int | 0 <= x < 0x1_0000_0000_0000_0000_0000_0000_0000_0000

  function Pow2(k: nat): (p: nat)
    ensures p > 0
  {
    if k == 0 then 1 else 2 * Pow2(k - 1)
  }

  lemma Pow2Sum(j: nat, k: nat)
    ensures Pow2(j + k) == Pow2(j) * Pow2(k)
  {
    if j > 0 {
      Pow2Sum(j - 1, k);
    }
  }

  /** The widths of a half word and of a word, tied to their capacities. */
  lemma WordBits() returns (half: nat, word: nat)
    ensures half == 64 && word == WORD_BITS
    ensures Pow2(half) == TWO_64 && Pow2(word) == TWO_128
  {
    var k := ByteBits();
    DoubleByte(k);
    half, word := 8 * k, 16 * k;
  }

  lemma ByteBits() returns (k: nat)
    ensures k == 8 && Pow2(k) == 0x100
  {
    k := 8;
  }

  lemma DoubleByte(k: nat)
    requires Pow2(k) == 0x100
    ensures Pow2(8 * k) == TWO_64 && Pow2(16 * k) == TWO_128
  {
    Pow2Sum(k, k);
    Pow2Sum(2 * k, 2 * k);
    Pow2Sum(4 * k, 4 * k);
    Pow2Sum(8 * k, 8 * k);
  }

  lemma Pow2Monotone(j: nat, k: nat)
    requires j <= k
    ensures Pow2(j) <= Pow2(k)
  {
    if j < k {
      Pow2Monotone(j, k - 1);
    }
  }

  /** Bitwise disjunction, from the lowest bit up. */
  function Or(a: nat, b: nat): nat {
    if a == 0 then b
    else if b == 0 then a
    else 2 * Or(a / 2, b / 2) + if a % 2 == 1 || b % 2 == 1 then 1 else 0
  }

  /** Bitwise conjunction, from the lowest bit up. */
  function And(a: nat, b: nat): nat {
    if a == 0 || b == 0 then 0
    else 2 * And(a / 2, b / 2) + if a % 2 == 1 && b % 2 == 1 then 1 else 0
  }

  /** Bitwise exclusive or, from the lowest bit up. */
  function Xor(a: nat, b: nat): nat {
    if a == 0 then b
    else if b == 0 then a
    else 2 * Xor(a / 2, b / 2) + if a % 2 != b % 2 then 1 else 0
  }

  lemma {:induction false} XorParts(a: nat, b: nat)
    ensures Xor(a, b) / 2 == Xor(a / 2, b / 2)
    ensures Xor(a, b) % 2 == if a % 2 != b % 2 then 1 else 0
  {
  }

  /** Applying the same mask twice restores the operand. */
  lemma {:induction false} XorTwice(a: nat, b: nat)
    ensures Xor(Xor(a, b), b) == a
    decreases a + b
  {
    if a + b > 0 {
      XorParts(a, b);
      XorParts(Xor(a, b), b);
      XorTwice(a / 2, b / 2);
    }
  }

  lemma {:induction false} XorCommutes(a: nat, b: nat)
    ensures Xor(a, b) == Xor(b, a)
  {
    if a > 0 && b > 0 {
      XorCommutes(a / 2, b / 2);
    }
  }

  lemma {:induction false} XorBound(a: nat, b: nat, k: nat)
    requires a < Pow2(k) && b < Pow2(k)
    ensures Xor(a, b) < Pow2(k)
  {
    if k > 0 && a > 0 && b > 0 {
      XorBound(a / 2, b / 2, k - 1);
    }
  }

  /** Operands with no common bit position add up. */
  lemma {:induction false} OrDisjoint(a: nat, b: nat, k: nat)
    requires a < Pow2(k) && b % Pow2(k) == 0
    ensures Or(a, b) == a + b
  {
    if k > 0 && a > 0 && b > 0 {
      HalfOfMultiple(b, Pow2(k - 1));
      OrDisjoint(a / 2, b / 2, k - 1);
    }
  }

  lemma HalfOfMultiple(b: nat, p: nat)
    requires p > 0 && b % (2 * p) == 0
    ensures b % 2 == 0 && (b / 2) % p == 0
  {
    var m := b / (2 * p);
    assert b == 2 * (p * m);
    assert b / 2 == p * m;
    MultipleHasNoRemainder(m, p);
  }

  lemma MultipleHasNoRemainder(m: nat, p: nat)
    requires p > 0
    ensures (p * m) % p == 0 && (p * m) / p == m
  {
    DivModUnique(p * m, p, m, 0);
  }

  lemma MulMonotone(d: int, x: int, y: int)
    requires d >= 0 && x <= y
    ensures d * x <= d * y && x * d <= y * d
  {
  }

  lemma DivModUnique(n: int, d: int, q: int, r: int)
    requires d > 0 && 0 <= r < d && n == d * q + r
    ensures n / d == q && n % d == r
  {
    var e := n / d - q;
    assert d * e == r - n % d;
    if e >= 1 {
      MulMonotone(d, 1, e);
    } else if e <= -1 {
      MulMonotone(d, e, -1);
    }
  }

  /** Masking with 2^k - 1 keeps the remainder modulo 2^k. */
  lemma {:induction false} AndMask(a: nat, k: nat)
    ensures And(a, Pow2(k) - 1) == a % Pow2(k)
  {
    if k > 0 {
      var p := Pow2(k - 1);
      AndMask(a / 2, k - 1);
      assert (2 * p - 1) / 2 == p - 1;
      MaskStep(a, p);
    }
  }

  lemma MaskStep(a: nat, p: nat)
    requires p > 0
    ensures a % (2 * p) == 2 * ((a / 2) % p) + a % 2
  {
    var h := a / 2;
    var q, r := h / p, h % p;
    assert h == p * q + r;
    assert a == 2 * h + a % 2;
    AssembleDigits(a, p, q, r, h, a % 2);
    DivModUnique(a, 2 * p, q, 2 * r + a % 2);
  }

  lemma AssembleDigits(a: int, p: int, q: int, r: int, h: int, bit: int)
    requires h == p * q + r && a == 2 * h + bit
    ensures a == (2 * p) * q + (2 * r + bit)
  {
  }

  lemma {:induction false} OrBound(a: nat, b: nat, k: nat)
    requires a < Pow2(k) && b < Pow2(k)
    ensures Or(a, b) < Pow2(k)
  {
    if k > 0 && a > 0 && b > 0 {
      OrBound(a / 2, b / 2, k - 1);
    }
  }

  // Machine-word forms. Shifts right divide, shifts left drop the bits above
  // 2^128, and the wrapping difference is taken modulo 2^128.

  function BitOr(a: u128, b: u128): (r: u128)
    ensures r as nat == Or(a as nat, b as nat)
  {
    OrInWord(a, b);
    Or(a as nat, b as nat) as u128
  }

  /** `a & MASK` with MASK = 2^64 - 1 */
  function Low64(a: u128): (r: u128)
    ensures r as nat == And(a as nat, TWO_64 - 1) == a as nat % TWO_64
  {
    MaskLow64(a);
    And(a as nat, TWO_64 - 1) as u128
  }

  /** `a >> 64` */
  function High64(a: u128): (r: u128)
    ensures r as nat == a as nat / TWO_64
  {
    (a as nat / TWO_64) as u128
  }

  /** `a << 64` */
  function Raise64(a: u128): (r: u128)
    ensures r as nat == (a as nat * TWO_64) % TWO_128
  {
    ((a as nat * TWO_64) % TWO_128) as u128
  }

  /** `a << 1` */
  function ShiftLeft(a: u128): (r: u128)
    ensures r as nat == (a as nat * 2) % TWO_128
  {
    ((a as nat * 2) % TWO_128) as u128
  }

  /** `a >> 127` */
  function TopBit(a: u128): (r: u128)
    ensures r as nat == a as nat / (TWO_128 / 2)
  {
    (a as nat / (TWO_128 / 2)) as u128
  }

  /** `(a >> i) & 1` */
  function BitAt(a: u128, i: nat): (r: u128)
    ensures r as nat == (a as nat / Pow2(i)) % 2
  {
    BitBelow2(a, i);
    And(a as nat / Pow2(i), 1) as u128
  }

  /** `1 << i` inside the word */
  function OneBit(i: nat): (r: u128)
    requires i < 128
    ensures r as nat == Pow2(i)
  {
    BitInWord(i);
    Pow2(i) as u128
  }

  lemma OrInWord(a: u128, b: u128)
    ensures Or(a as nat, b as nat) < TWO_128
  {
    var half, word := WordBits();
    OrBound(a as nat, b as nat, word);
  }

  lemma MaskLow64(a: u128)
    ensures And(a as nat, TWO_64 - 1) == a as nat % TWO_64
  {
    var half, word := WordBits();
    AndMask(a as nat, half);
  }

  lemma BitBelow2(a: u128, i: nat)
    ensures a as nat / Pow2(i) >= 0
    ensures And(a as nat / Pow2(i), 1) == (a as nat / Pow2(i)) % 2
  {
    DivideShrinks(a as nat, Pow2(i));
    AndMask(a as nat / Pow2(i), 1);
  }

  lemma BitInWord(i: nat)
    requires i < 128
    ensures 2 * Pow2(i) <= TWO_128
  {
    var half, word := WordBits();
    Pow2Monotone(i + 1, word);
  }

  lemma DivideShrinks(a: nat, d: nat)
    requires d > 0
    ensures 0 <= a / d <= a
  {
    assert a / d >= 0;
    MulMonotone(a / d, 1, d);
  }

  function WrappingSub(a: u128, b: u128): (r: u128)
    ensures r as int == if a >= b then a as int - b as int else a as int - b as int + TWO_128
  {
    ((a as int - b as int) % TWO_128) as u128
  }
}
