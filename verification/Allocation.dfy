/**
 * Largest-remainder allocation. `IsAllocation` says what a fair, exact split
 * is; it pins the result down completely, and `Allocate` computes it.
 */
module Allocation {
  import opened Bits
  import opened Results
  import opened Sums
  import opened WideMath

  /** A positive fractional remainder and the recipient it belongs to. */
  datatype Share = Share(rem: int, index: nat)

  function FloorShare(total: int, weight: int, whole: int): int
    requires whole > 0
  {
    total * weight / whole
  }

  function Remainder(total: int, weight: int, whole: int): int
    requires whole > 0
  {
    total * weight % whole
  }

  /** Largest remainder first, lowest index first among equals. */
  predicate Before(a: Share, b: Share) {
    a.rem > b.rem || (a.rem == b.rem && a.index < b.index)
  }

  ghost predicate IsAllocation(total: int, weights: seq<int>, out: seq<int>)
    requires Sum(weights) > 0
  {
    var w := Sum(weights);
    && |out| == |weights|
    && Sum(out) == total
    && (forall i :: 0 <= i < |out| ==>
          || out[i] == FloorShare(total, weights[i], w)
          || (Remainder(total, weights[i], w) > 0 && out[i] == FloorShare(total, weights[i], w) + 1))
    && (forall i, j :: 0 <= i < |out| && 0 <= j < |out| && TopsUp(total, weights, out, i, j) ==>
          Before(Share(Remainder(total, weights[i], w), i), Share(Remainder(total, weights[j], w), j)))
  }

  /** Recipient `i` got an extra unit and `j`, who had a remainder too, did not. */
  predicate TopsUp(total: int, weights: seq<int>, out: seq<int>, i: nat, j: nat)
    requires Sum(weights) > 0 && |out| == |weights| && i < |out| && j < |out|
  {
    var w := Sum(weights);
    && out[i] == FloorShare(total, weights[i], w) + 1
    && out[j] == FloorShare(total, weights[j], w)
    && Remainder(total, weights[j], w) > 0
  }

  /** The rule leaves no freedom: two fair splits of the same amount are the same split. */
  lemma AllocationUnique(total: int, weights: seq<int>, a: seq<int>, b: seq<int>)
    requires Sum(weights) > 0 && IsAllocation(total, weights, a) && IsAllocation(total, weights, b)
    ensures a == b
  {
    if i :| 0 <= i < |a| && a[i] > b[i] {
      var j := SomewhereLess(a, b, i);
      NoSwap(total, weights, a, b, i, j);
    } else {
      SumPointwise(a, b);
    }
  }

  /** If `a` favours `i` over `j`, then `b` cannot favour `j` over `i`. */
  lemma NoSwap(total: int, weights: seq<int>, a: seq<int>, b: seq<int>, i: nat, j: nat)
    requires Sum(weights) > 0 && IsAllocation(total, weights, a) && IsAllocation(total, weights, b)
    requires i < |a| && j < |a| && a[i] > b[i]
    ensures a[j] >= b[j]
  {
    var favours := (TopsUp(total, weights, a, i, j), TopsUp(total, weights, b, j, i));
  }

  lemma SomewhereLess(a: seq<int>, b: seq<int>, i: nat) returns (j: nat)
    requires |a| == |b| && i < |a| && a[i] > b[i] && Sum(a) == Sum(b)
    ensures j < |a| && a[j] < b[j]
  {
    if forall k :: 0 <= k < |a| ==> a[k] >= b[k] {
      SumPointwise(b, a);
    }
    j :| 0 <= j < |a| && a[j] < b[j];
  }

  /** Every output is less than one unit from the exact share; zero weights get nothing. */
  lemma AllocationFair(total: int, weights: seq<int>, out: seq<int>, i: nat)
    requires total >= 0 && Sum(weights) > 0 && IsAllocation(total, weights, out) && i < |out|
    ensures -Sum(weights) < out[i] * Sum(weights) - total * weights[i] < Sum(weights)
    ensures weights[i] == 0 ==> out[i] == 0
    ensures weights[i] >= 0 ==> out[i] >= 0
  {
    var w := Sum(weights);
    var f, r := FloorShare(total, weights[i], w), Remainder(total, weights[i], w);
    ShareSplit(total, weights[i], w);
    WithinOne(total * weights[i], w, f, r, out[i]);
  }

  lemma WithinOne(n: int, w: int, f: int, r: int, o: int)
    requires w > 0 && n == w * f + r && 0 <= r < w
    requires o == f || (r > 0 && o == f + 1)
    ensures -w < o * w - n < w
  {
    assert o == f + 1 ==> o * w == w * f + w;
  }

  lemma ShareSplit(total: int, weight: int, whole: int)
    requires whole > 0
    ensures total * weight == whole * FloorShare(total, weight, whole) + Remainder(total, weight, whole)
    ensures 0 <= Remainder(total, weight, whole) < whole
    ensures weight == 0 ==> FloorShare(total, weight, whole) == 0
    ensures total >= 0 && weight >= 0 ==> FloorShare(total, weight, whole) >= 0
  {
    var n := total * weight;
    assert n == whole * (n / whole) + n % whole;
    if total >= 0 && weight >= 0 {
      MulMonotone(total, 0, weight);
    }
  }

  /** A heavier recipient never gets less than a lighter one. */
  lemma AllocationMonotone(total: int, weights: seq<int>, out: seq<int>, i: nat, j: nat)
    requires total >= 0 && Sum(weights) > 0 && IsAllocation(total, weights, out)
    requires i < |out| && j < |out| && weights[i] > weights[j]
    ensures out[i] >= out[j]
  {
    var w := Sum(weights);
    ShareSplit(total, weights[i], w);
    ShareSplit(total, weights[j], w);
    MulMonotone(total, weights[j], weights[i]);
    var fi, fj := FloorShare(total, weights[i], w), FloorShare(total, weights[j], w);
    QuotientMonotone(w, fi, Remainder(total, weights[i], w), fj, Remainder(total, weights[j], w));
    var favours := TopsUp(total, weights, out, j, i);
  }

  lemma QuotientMonotone(w: int, p: int, r: int, q: int, s: int)
    requires w > 0 && 0 <= r < w && 0 <= s < w && w * q + s <= w * p + r
    ensures q <= p && (q == p ==> s <= r)
  {
    if p < q {
      MulMonotone(w, p + 1, q);
    }
  }

  // ---------------------------------------------------------------------
  // The leftover never exceeds the number of positive remainders
  // ---------------------------------------------------------------------

  function FloorShares(total: int, weights: seq<int>, whole: int): (s: seq<int>)
    requires whole > 0
    ensures |s| == |weights|
    ensures forall i :: 0 <= i < |s| ==> s[i] == FloorShare(total, weights[i], whole)
  {
    if weights == [] then []
    else
      var n := |weights| - 1;
      FloorShares(total, weights[..n], whole) + [FloorShare(total, weights[n], whole)]
  }

  /** The positive remainders in index order. */
  function Remainders(total: int, weights: seq<int>, whole: int): (rs: seq<Share>)
    requires whole > 0
    ensures |rs| <= |weights|
    ensures forall s :: s in rs <==>
              s.index < |weights| && s.rem == Remainder(total, weights[s.index], whole) > 0
    ensures forall i, j :: 0 <= i < j < |rs| ==> rs[i].index < rs[j].index
  {
    if weights == [] then []
    else
      var n := |weights| - 1;
      var r := Remainder(total, weights[n], whole);
      var rs := Remainders(total, weights[..n], whole);
      if r > 0 then rs + [Share(r, n)] else rs
  }

  function RemainderSum(rs: seq<Share>): int {
    if rs == [] then 0 else RemainderSum(rs[..|rs| - 1]) + rs[|rs| - 1].rem
  }

  lemma {:induction false} ShareDecomposition(total: int, weights: seq<int>, whole: int)
    requires whole > 0
    ensures total * Sum(weights)
         == whole * Sum(FloorShares(total, weights, whole)) + RemainderSum(Remainders(total, weights, whole))
  {
    if weights != [] {
      var n := |weights| - 1;
      var f, r := FloorShare(total, weights[n], whole), Remainder(total, weights[n], whole);
      var fs, rs := FloorShares(total, weights[..n], whole), Remainders(total, weights[..n], whole);
      ShareSplit(total, weights[n], whole);
      ShareDecomposition(total, weights[..n], whole);
      SumSnoc(fs, f);
      assert (rs + [Share(r, n)])[..|rs|] == rs;
      AddShares(total, Sum(weights[..n]), weights[n], Sum(weights), whole, Sum(fs), f,
                Sum(FloorShares(total, weights, whole)), RemainderSum(rs), r);
    }
  }

  lemma AddShares(total: int, ws: int, w: int, sum: int, whole: int, fs: int, f: int, floors: int, rs: int, r: int)
    requires total * ws == whole * fs + rs && total * w == whole * f + r
    requires sum == ws + w && floors == fs + f
    ensures total * sum == whole * floors + (rs + r)
  {
  }

  lemma {:induction false} RemainderSumBound(rs: seq<Share>, whole: int)
    requires whole > 0 && forall s :: s in rs ==> 0 < s.rem < whole
    ensures 0 <= RemainderSum(rs) <= whole * |rs|
    ensures rs != [] ==> RemainderSum(rs) < whole * |rs|
  {
    if rs != [] {
      RemainderSumBound(rs[..|rs| - 1], whole);
      assert whole * |rs| == whole * (|rs| - 1) + whole;
      assert rs[|rs| - 1] in rs;
    }
  }

  /** The units left after flooring are none, or fewer than the positive remainders. */
  lemma LeftoverBound(total: int, weights: seq<int>, leftover: int)
    requires Sum(weights) > 0
    requires leftover == total - Sum(FloorShares(total, weights, Sum(weights)))
    ensures 0 <= leftover
    ensures leftover == 0 || leftover < |Remainders(total, weights, Sum(weights))|
  {
    var w := Sum(weights);
    var rs := Remainders(total, weights, w);
    ShareDecomposition(total, weights, w);
    RemainderSumBound(rs, w);
    LeftoverCount(total, w, Sum(FloorShares(total, weights, w)), RemainderSum(rs), |rs|);
  }

  lemma LeftoverCount(total: int, w: int, floors: int, rems: int, count: nat)
    requires w > 0 && total * w == w * floors + rems
    requires 0 <= rems <= w * count && (count > 0 ==> rems < w * count)
    ensures 0 <= total - floors && (total == floors || total - floors < count)
  {
    var leftover := total - floors;
    assert w * leftover == rems;
    if leftover < 0 {
      MulMonotone(w, leftover, -1);
    } else if leftover > 0 {
      MulMonotone(w, 1, leftover);
      if leftover >= count {
        MulMonotone(w, count, leftover);
      }
    }
  }

  // ---------------------------------------------------------------------
  // Sorting the remainders
  // ---------------------------------------------------------------------

  predicate Sorted(rs: seq<Share>) {
    forall i, j :: 0 <= i < j < |rs| ==> Before(rs[i], rs[j])
  }

  predicate DistinctIndices(rs: seq<Share>) {
    forall i, j :: 0 <= i < j < |rs| ==> rs[i].index != rs[j].index
  }

  function Insert(x: Share, rs: seq<Share>): (r: seq<Share>)
    requires Sorted(rs) && forall s :: s in rs ==> s.index != x.index
    ensures Sorted(r) && |r| == |rs| + 1
    ensures forall s :: s in r <==> s == x || s in rs
  {
    if rs == [] || Before(x, rs[0]) then [x] + rs
    else
      SortedCons(rs[0], Insert(x, rs[1..]));
      [rs[0]] + Insert(x, rs[1..])
  }

  lemma SortedCons(x: Share, rs: seq<Share>)
    requires Sorted(rs) && forall s :: s in rs ==> Before(x, s)
    ensures Sorted([x] + rs)
  {
  }

  /** The order the library's unstable sort produces: keys are distinct, so it is unique. */
  function SortShares(rs: seq<Share>): (r: seq<Share>)
    requires DistinctIndices(rs)
    ensures Sorted(r) && |r| == |rs|
    ensures forall s :: s in r <==> s in rs
  {
    if rs == [] then []
    else Insert(rs[0], SortShares(rs[1..]))
  }

  // ---------------------------------------------------------------------
  // The method
  // ---------------------------------------------------------------------

  ghost predicate NonNegative(weights: seq<int>) {
    forall i :: 0 <= i < |weights| ==> weights[i] >= 0
  }

  /** Adding the weights up overflows 128 bits before any negative weight is met. */
  ghost predicate SumOverflows(weights: seq<int>) {
    exists k :: 0 <= k <= |weights| && NonNegative(weights[..k]) && Sum(weights[..k]) >= TWO_128
  }

  ghost predicate Among(top: seq<Share>, i: nat) {
    exists s :: s in top && s.index == i
  }

  /** Exactly the recipients among `top` hold one unit more than their floor. */
  ghost predicate ToppedUp(out: seq<int>, floors: seq<int>, top: seq<Share>)
    requires |out| == |floors|
  {
    forall i :: 0 <= i < |out| ==>
      out[i] == floors[i] + if Among(top, i) then 1 else 0
  }

  /** Adds the weights up, refusing a negative one or a total above 128 bits. */
  method WeightSum(weights: seq<i128>) returns (r: Result<u128, MathError>)
    ensures r.Ok? <==> NonNegative(weights) && Sum(weights) < TWO_128
    ensures r.Ok? ==> r.value as int == Sum(weights)
    ensures r == Err(Overflow) <==> SumOverflows(weights)
    ensures r.Err? ==> r.error in {Overflow, Negative}
  {
    var whole: u128 := 0;
    for i := 0 to |weights|
      invariant whole as int == Sum(weights[..i])
      invariant NonNegative(weights[..i])
      invariant forall k :: 0 <= k <= i ==> Sum(weights[..k]) < TWO_128
    {
      if weights[i] < 0 {
        NegativeBlocks(weights, i);
        return Err(Negative);
      }
      SumPrefix(weights, i);
      if whole as int + weights[i] >= TWO_128 {
        OverflowBlocks(weights, i + 1);
        return Err(Overflow);
      }
      whole := whole + weights[i] as u128;
    }
    assert weights[..|weights|] == weights;
    return Ok(whole);
  }

  method FloorAndRemainder(total: i128, weight: i128, whole: u128) returns (q: i128, rem: int)
    requires total >= 0 && weight >= 0 && whole > 0
    requires 0 <= FloorShare(total, weight, whole as int) <= total
    ensures q == FloorShare(total, weight, whole as int) && rem == Remainder(total, weight, whole as int)
  {
    var qr := MulDivRem(total as u128, weight as u128, whole);
    return qr.value.0 as int, qr.value.1 as int;
  }

  /** Gives every recipient its floor and collects the positive remainders. */
  method FloorPass(total: i128, weights: seq<i128>, whole: u128)
    returns (out: seq<i128>, rems: seq<Share>, given: int)
    requires total > 0 && NonNegative(weights) && Sum(weights) == whole as int > 0
    ensures out == FloorShares(total, weights, whole as int)
    ensures rems == Remainders(total, weights, whole as int)
    ensures given == Sum(out)
  {
    out, rems, given := [], [], 0;
    for i := 0 to |weights|
      invariant out == FloorShares(total, weights[..i], whole as int)
      invariant rems == Remainders(total, weights[..i], whole as int)
      invariant given == Sum(out)
    {
      ShareFits(total, weights, whole as int, i);
      var q, rem := FloorAndRemainder(total, weights[i], whole);
      SumSnoc(out, q);
      PassStep(total, weights, whole as int, i);
      out := out + [q];
      given := given + q;
      if rem > 0 {
        rems := rems + [Share(rem, i)];
      }
    }
    assert weights[..|weights|] == weights;
  }

  lemma PassStep(total: int, weights: seq<int>, whole: int, i: nat)
    requires whole > 0 && i < |weights|
    ensures FloorShares(total, weights[..i + 1], whole)
         == FloorShares(total, weights[..i], whole) + [FloorShare(total, weights[i], whole)]
    ensures var r, rs := Remainder(total, weights[i], whole), Remainders(total, weights[..i], whole);
            Remainders(total, weights[..i + 1], whole) == if r > 0 then rs + [Share(r, i)] else rs
  {
    assert weights[..i + 1][..i] == weights[..i];
  }

  /** Hands one unit each to the first `leftover` entries of the sorted remainders. */
  method TopUp(total: i128, floors: seq<i128>, sorted: seq<Share>, leftover: nat) returns (out: seq<i128>)
    requires Sorted(sorted) && DistinctIndices(sorted) && leftover <= |sorted|
    requires forall s :: s in sorted ==> s.index < |floors|
    requires leftover > 0 ==> forall i :: 0 <= i < |floors| ==> floors[i] < total
    ensures |out| == |floors| && ToppedUp(out, floors, sorted[..leftover])
    ensures Sum(out) == Sum(floors) + leftover
  {
    out := floors;
    for k := 0 to leftover
      invariant |out| == |floors|
      invariant ToppedUp(out, floors, sorted[..k])
      invariant Sum(out) == Sum(floors) + k
    {
      assert sorted[k] in sorted;
      var i := sorted[k].index;
      TopUpOne(out, floors, sorted, k);
      SumUpdate(out, i, out[i] + 1);
      out := out[i := out[i] + 1];
    }
  }

  method Allocate(total: i128, weights: seq<i128>) returns (r: Result<seq<i128>, MathError>)
    ensures r.Ok? <==> total >= 0 && NonNegative(weights) && Sum(weights) < TWO_128
                       && (total > 0 ==> Sum(weights) > 0)
    ensures r == Err(NoRecipients) <==> total > 0 && NonNegative(weights) && Sum(weights) == 0
    ensures r == Err(Overflow) <==> total >= 0 && SumOverflows(weights)
    ensures r.Err? ==> r.error in {NoRecipients, Overflow, Negative}
    ensures r.Ok? && total == 0 ==> r.value == seq(|weights|, _ => 0)
    ensures r.Ok? && total > 0 ==> IsAllocation(total, weights, r.value)
  {
    if total < 0 {
      return Err(Negative);
    }
    var sum := WeightSum(weights);
    if sum.Err? {
      return Err(sum.error);
    }
    if NonNegative(weights) {
      SumNonNegative(weights);
    }
    var whole := sum.value;
    if total == 0 {
      return Ok(seq(|weights|, _ => 0));
    }
    if whole == 0 {
      return Err(NoRecipients);
    }
    var out, rems, given := FloorPass(total, weights, whole);
    var sorted := SortShares(rems);
    var leftover := total - given;
    SortedAreDistinct(total, weights, whole as int, sorted);
    LeftoverBound(total, weights, leftover);
    RoomToTopUp(total, weights, out, leftover);
    ghost var floors := out;
    out := TopUp(total, out, sorted, leftover);
    WinnersAreFirst(total, weights, out, floors, sorted, leftover);
    return Ok(out);
  }

  lemma SortedAreDistinct(total: int, weights: seq<int>, whole: int, sorted: seq<Share>)
    requires whole > 0 && Sorted(sorted)
    requires forall s :: s in sorted <==> s in Remainders(total, weights, whole)
    ensures DistinctIndices(sorted)
  {
    forall i, j | 0 <= i < j < |sorted|
      ensures sorted[i].index != sorted[j].index
    {
      assert sorted[i] in sorted && sorted[j] in sorted;
    }
  }

  lemma NegativeBlocks(weights: seq<int>, i: nat)
    requires i < |weights| && weights[i] < 0
    requires forall k :: 0 <= k <= i ==> Sum(weights[..k]) < TWO_128
    ensures !NonNegative(weights) && !SumOverflows(weights)
  {
    forall k | i < k <= |weights|
      ensures !NonNegative(weights[..k])
    {
      assert weights[..k][i] < 0;
    }
  }

  lemma OverflowBlocks(weights: seq<int>, k: nat)
    requires k <= |weights| && NonNegative(weights[..k]) && Sum(weights[..k]) >= TWO_128
    ensures SumOverflows(weights) && !(NonNegative(weights) && Sum(weights) < TWO_128)
  {
    if NonNegative(weights) {
      SumPrefixMonotone(weights, k, |weights|);
      assert weights[..|weights|] == weights;
    }
  }

  /** A recipient's floor is at most the total, and strictly less when it has a remainder. */
  lemma ShareFits(total: i128, weights: seq<i128>, whole: int, i: nat)
    requires total >= 0 && NonNegative(weights) && whole == Sum(weights) > 0 && i < |weights|
    ensures 0 <= FloorShare(total, weights[i], whole) <= total
    ensures Remainder(total, weights[i], whole) > 0 ==> FloorShare(total, weights[i], whole) < total
  {
    SumNonNegative(weights);
    ShareSplit(total, weights[i], whole);
    MulMonotone(total, weights[i], whole);
    QuotientMonotone(whole, total, 0, FloorShare(total, weights[i], whole), Remainder(total, weights[i], whole));
  }

  /** While units are left over no recipient's floor has reached the total. */
  lemma RoomToTopUp(total: i128, weights: seq<i128>, floors: seq<i128>, leftover: int)
    requires total > 0 && NonNegative(weights) && Sum(weights) > 0
    requires floors == FloorShares(total, weights, Sum(weights)) && leftover == total - Sum(floors)
    ensures leftover > 0 ==> forall i :: 0 <= i < |floors| ==> floors[i] < total
  {
    forall i | 0 <= i < |floors|
      ensures floors[i] >= 0
    {
      ShareSplit(total, weights[i], Sum(weights));
    }
    SumNonNegative(floors);
  }

  lemma TopUpOne(out: seq<int>, floors: seq<int>, sorted: seq<Share>, k: nat)
    requires |out| == |floors| && k < |sorted| && Sorted(sorted)
    requires DistinctIndices(sorted)
    requires sorted[k].index < |out|
    requires ToppedUp(out, floors, sorted[..k])
    ensures out[sorted[k].index] == floors[sorted[k].index]
    ensures ToppedUp(out[sorted[k].index := out[sorted[k].index] + 1], floors, sorted[..k + 1])
  {
    var x := sorted[k].index;
    assert forall s :: s in sorted[..k] ==> s.index != x;
    assert sorted[..k + 1] == sorted[..k] + [sorted[k]];
    forall i | 0 <= i < |out|
      ensures Among(sorted[..k + 1], i) <==> i == x || Among(sorted[..k], i)
    {
      if i == x {
        assert sorted[k] in sorted[..k + 1];
      }
      if s :| s in sorted[..k] && s.index == i {
        assert s in sorted[..k + 1];
      }
    }
  }

  predicate Earned(total: int, weights: seq<int>, out: seq<int>, floors: seq<int>, i: nat)
    requires Sum(weights) > 0 && |out| == |floors| == |weights| && i < |out|
  {
    out[i] != floors[i] ==> Remainder(total, weights[i], Sum(weights)) > 0
  }

  lemma OnlyRemaindersTopUp(total: i128, weights: seq<i128>, out: seq<int>, floors: seq<int>, top: seq<Share>, i: nat)
    requires Sum(weights) > 0 && |out| == |floors| == |weights| && i < |out|
    requires forall s :: s in top ==> s in Remainders(total, weights, Sum(weights))
    requires ToppedUp(out, floors, top)
    ensures Earned(total, weights, out, floors, i)
  {
    if out[i] != floors[i] {
      var s :| s in top && s.index == i;
    }
  }

  lemma WinnersAreFirst(total: i128, weights: seq<i128>, out: seq<int>, floors: seq<int>, sorted: seq<Share>,
                        leftover: nat)
    requires Sum(weights) > 0
    requires floors == FloorShares(total, weights, Sum(weights)) && |out| == |floors|
    requires leftover <= |sorted| && Sorted(sorted)
    requires forall s :: s in sorted <==> s in Remainders(total, weights, Sum(weights))
    requires ToppedUp(out, floors, sorted[..leftover])
    requires Sum(out) == total
    ensures IsAllocation(total, weights, out)
  {
    var w := Sum(weights);
    forall i | 0 <= i < |out|
      ensures Earned(total, weights, out, floors, i)
    {
      OnlyRemaindersTopUp(total, weights, out, floors, sorted[..leftover], i);
    }
    forall i, j | 0 <= i < |out| && 0 <= j < |out| && TopsUp(total, weights, out, i, j)
      ensures Before(Share(Remainder(total, weights[i], w), i), Share(Remainder(total, weights[j], w), j))
    {
      var s :| s in sorted[..leftover] && s.index == i;
      assert s in sorted;
      var t := Share(Remainder(total, weights[j], w), j);
      assert t in sorted;
      var a :| 0 <= a < leftover && sorted[a] == s;
      var b :| 0 <= b < |sorted| && sorted[b] == t;
      assert b < leftover ==> sorted[..leftover][b] == t;
    }
  }
}
