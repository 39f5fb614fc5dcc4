/** Byte strings: big-endian integers, and the order Python compares bytes with. */
module ByteStrings {
  import opened Bits

  type byte = x: int | 0 <= x < 256

  type Bytes = seq<byte>

  /** How many values k bytes can hold. */
  function Capacity(k: nat): (c: nat)
    ensures c > 0
  {
    if k == 0 then 1 else 256 * Capacity(k - 1)
  }

  lemma CapacitySum(j: nat, k: nat)
    ensures Capacity(j + k) == Capacity(j) * Capacity(k)
  {
    if j > 0 {
      CapacitySum(j - 1, k);
    }
  }

  /** The low k bytes of n, most significant first. */
  function BigEndian(n: nat, k: nat): (b: Bytes)
    ensures |b| == k
  {
    if k == 0 then [] else BigEndian(n / 256, k - 1) + [n % 256]
  }

  function FromBigEndian(b: Bytes): nat {
    if b == [] then 0 else 256 * FromBigEndian(b[..|b| - 1]) + b[|b| - 1]
  }

  lemma {:induction false} BigEndianRoundTrip(n: nat, k: nat)
    requires n < Capacity(k)
    ensures FromBigEndian(BigEndian(n, k)) == n
  {
    if k > 0 {
      BigEndianRoundTrip(n / 256, k - 1);
    }
  }

  lemma {:induction false} BytesRoundTrip(b: Bytes)
    ensures FromBigEndian(b) < Capacity(|b|)
    ensures BigEndian(FromBigEndian(b), |b|) == b
  {
    if b != [] {
      BytesRoundTrip(b[..|b| - 1]);
    }
  }

  /** Byte j, counted from the front, is the digit of weight 256^(k-1-j). */
  lemma {:induction false} BigEndianDigits(n: nat, k: nat, j: nat)
    requires j < k
    ensures BigEndian(n, k)[j] == (n / Capacity(k - 1 - j)) % 256
  {
    if j < k - 1 {
      BigEndianDigits(n / 256, k - 1, j);
      DivideTwice(n, 256, Capacity(k - 2 - j));
    }
  }

  lemma DivideTwice(n: nat, a: nat, b: nat)
    requires a > 0 && b > 0
    ensures a * b > 0 && (n / a) / b == n / (a * b)
  {
    var q, r := n / a, n % a;
    var q1, r1 := q / b, q % b;
    MulMonotone(a, 1, b);
    MulMonotone(a, r1, b - 1);
    assert a * (b * q1 + r1) == (a * b) * q1 + a * r1;
    assert a * (b - 1) == a * b - a;
    DivModUnique(n, a * b, q1, a * r1 + r);
  }

  /** How many values the fixed-width integer fields hold. */
  lemma WordCapacities()
    ensures Capacity(4) == 0x1_0000_0000
    ensures Capacity(8) == TWO_64
    ensures Capacity(16) == TWO_128
  {
    CapacitySum(4, 4);
    CapacitySum(8, 8);
  }

  lemma ConcatSplit<T>(a: seq<T>, b: seq<T>, c: seq<T>, d: seq<T>)
    requires |a| == |c| && a + b == c + d
    ensures a == c && b == d
  {
    assert a == (a + b)[..|a|] == (c + d)[..|a|] == c;
    assert b == (a + b)[|a|..] == (c + d)[|a|..] == d;
  }

  /** Two's complement in k bytes. */
  function SignedBigEndian(n: int, k: nat): (b: Bytes)
    ensures |b| == k
  {
    BigEndian(n % Capacity(k), k)
  }

  function Signed(n: int, capacity: int): int {
    if 2 * n >= capacity then n - capacity else n
  }

  function FromSignedBigEndian(b: Bytes): int {
    Signed(FromBigEndian(b), Capacity(|b|))
  }

  lemma SignedRoundTrip(n: int, k: nat)
    requires 0 <= 2 * n + Capacity(k) < 2 * Capacity(k)
    ensures FromSignedBigEndian(SignedBigEndian(n, k)) == n
  {
    var m := if n < 0 then n + Capacity(k) else n;
    DivModUnique(n, Capacity(k), if n < 0 then -1 else 0, m);
    BigEndianRoundTrip(m, k);
  }

  // ---------------------------------------------------------------------
  // Lexicographic order
  // ---------------------------------------------------------------------

  predicate LexLe(a: Bytes, b: Bytes) {
    if a == [] then true
    else if b == [] then false
    else if a[0] != b[0] then a[0] < b[0]
    else LexLe(a[1..], b[1..])
  }

  lemma {:induction false} LexTotal(a: Bytes, b: Bytes)
    ensures LexLe(a, b) || LexLe(b, a)
    ensures LexLe(a, b) && LexLe(b, a) ==> a == b
  {
    if a != [] && b != [] && a[0] == b[0] {
      LexTotal(a[1..], b[1..]);
      assert a == [a[0]] + a[1..] && b == [b[0]] + b[1..];
    }
  }

  lemma {:induction false} LexTransitive(a: Bytes, b: Bytes, c: Bytes)
    requires LexLe(a, b) && LexLe(b, c)
    ensures LexLe(a, c)
  {
    if a != [] && a[0] == b[0] && b[0] == c[0] {
      LexTransitive(a[1..], b[1..], c[1..]);
    }
  }

  /** At the first difference the smaller byte decides; a proper prefix comes first. */
  lemma {:induction false} LexMeaning(a: Bytes, b: Bytes)
    ensures LexLe(a, b) <==>
              || a <= b
              || exists k: nat :: k < |a| && k < |b| && a[..k] == b[..k] && a[k] < b[k]
  {
    if a == [] || b == [] {
    } else if a[0] != b[0] {
      if a[0] < b[0] {
        assert a[..0] == b[..0];
      }
      forall k: nat
      {
        SameHead(a, b, k);
      }
    } else {
      LexMeaning(a[1..], b[1..]);
      LexTails(a, b);
    }
  }

  lemma SameHead(a: Bytes, b: Bytes, k: nat)
    ensures 0 < k <= |a| && k <= |b| && a[..k] == b[..k] ==> a[0] == b[0]
  {
    if 0 < k <= |a| && k <= |b| && a[..k] == b[..k] {
      assert a[0] == a[..k][0] && b[0] == b[..k][0];
    }
  }

  lemma LexTails(a: Bytes, b: Bytes)
    requires a != [] && b != [] && a[0] == b[0]
    ensures a <= b <==> a[1..] <= b[1..]
    ensures (exists k: nat :: k < |a| && k < |b| && a[..k] == b[..k] && a[k] < b[k])
       <==> exists k: nat :: k < |a[1..]| && k < |b[1..]| && a[1..][..k] == b[1..][..k] && a[1..][k] < b[1..][k]
  {
    assert a == [a[0]] + a[1..] && b == [b[0]] + b[1..];
    if k: nat :| k < |a| && k < |b| && a[..k] == b[..k] && a[k] < b[k] {
      assert a[1..][..k - 1] == a[..k][1..] && b[1..][..k - 1] == b[..k][1..];
      assert a[1..][k - 1] < b[1..][k - 1];
    }
    if k: nat :| k < |a[1..]| && k < |b[1..]| && a[1..][..k] == b[1..][..k] && a[1..][k] < b[1..][k] {
      assert a[..k + 1] == [a[0]] + a[1..][..k] && b[..k + 1] == [b[0]] + b[1..][..k];
      assert a[k + 1] < b[k + 1];
    }
  }

  predicate LexSorted(s: seq<Bytes>) {
    forall i, j :: 0 <= i < j < |s| ==> LexLe(s[i], s[j])
  }

  /** Sorting leaves no choice: equal multisets sort to equal sequences. */
  lemma {:induction false} SortedUnique(s: seq<Bytes>, t: seq<Bytes>)
    requires LexSorted(s) && LexSorted(t) && multiset(s) == multiset(t)
    ensures s == t
  {
    if s == [] {
      assert |multiset(s)| == |s| && |multiset(t)| == |t|;
    } else {
      assert s == [s[0]] + s[1..];
      assert s[0] in multiset(s) && s[0] in t;
      assert t == [t[0]] + t[1..];
      assert t[0] in multiset(t) && t[0] in s;
      LeastIsFirst(s, t[0]);
      LeastIsFirst(t, s[0]);
      LexTotal(s[0], t[0]);
      assert multiset(s[1..]) == multiset(s) - multiset{s[0]};
      assert multiset(t[1..]) == multiset(t) - multiset{t[0]};
      SortedUnique(s[1..], t[1..]);
    }
  }

  lemma LeastIsFirst(s: seq<Bytes>, x: Bytes)
    requires LexSorted(s) && x in s
    ensures LexLe(s[0], x)
  {
    LexTotal(x, x);
  }

  function Insert(x: Bytes, s: seq<Bytes>): (r: seq<Bytes>)
    requires LexSorted(s)
    ensures LexSorted(r) && multiset(r) == multiset(s) + multiset{x} && |r| == |s| + 1
  {
    if s == [] then [x]
    else if LexLe(x, s[0]) then
      InsertFront(x, s);
      [x] + s
    else
      assert s == [s[0]] + s[1..];
      InsertBehind(x, s, Insert(x, s[1..]));
      [s[0]] + Insert(x, s[1..])
  }

  lemma InsertFront(x: Bytes, s: seq<Bytes>)
    requires LexSorted(s) && s != [] && LexLe(x, s[0])
    ensures LexSorted([x] + s)
  {
    forall j | 0 <= j < |s|
      ensures LexLe(x, s[j])
    {
      if j > 0 {
        LexTransitive(x, s[0], s[j]);
      }
    }
  }

  lemma InsertBehind(x: Bytes, s: seq<Bytes>, r: seq<Bytes>)
    requires LexSorted(s) && s != [] && !LexLe(x, s[0])
    requires LexSorted(r) && multiset(r) == multiset(s[1..]) + multiset{x}
    ensures LexSorted([s[0]] + r)
  {
    LexTotal(x, s[0]);
    forall j | 0 <= j < |r|
      ensures LexLe(s[0], r[j])
    {
      assert r[j] in multiset(r);
      if r[j] != x {
        assert r[j] in multiset(s[1..]);
        var k :| 0 <= k < |s[1..]| && s[1..][k] == r[j];
        assert s[k + 1] == r[j];
      }
    }
  }

  /** `sorted(...)` on byte strings. */
  function Sorted(s: seq<Bytes>): (r: seq<Bytes>)
    ensures LexSorted(r) && multiset(r) == multiset(s) && |r| == |s|
  {
    if s == [] then []
    else
      assert s == [s[0]] + s[1..];
      Insert(s[0], Sorted(s[1..]))
  }
}
