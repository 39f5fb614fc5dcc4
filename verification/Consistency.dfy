/** The executable post-restore check, against the invariant it is meant to check. */
module Consistency {
  import opened Results
  import opened Sums
  import opened GrantRecords

  datatype Inconsistency =
    | MilestoneSumMismatch
    | OutOfOrderConfirmation
    | ClaimedWithoutConfirmation
    | ClaimableMismatch

  /** No intermediate sum leaves i128, as the checked fold demands. */
  ghost predicate PrefixesFit(s: seq<int>) {
    forall n :: 0 <= n <= |s| ==> FitsI128(Sum(s[..n]))
  }

  /** The unclaimed total as the check computes it, saturating at every step. */
  function SaturatedUnclaimed(ms: seq<Milestone>): i128 {
    if ms == [] then 0
    else
      var m := ms[|ms| - 1];
      var rest := SaturatedUnclaimed(ms[..|ms| - 1]);
      if m.confirmed && !m.claimed then SaturatingI128(rest + m.amount) else rest
  }

  ghost predicate Consistent(g: Grant) {
    && PrefixesFit(Amounts(g.milestones)) && Sum(Amounts(g.milestones)) == g.total
    && ClaimedOnlyConfirmed(g.milestones)
    && InOrder(g.milestones)
    && SaturatedUnclaimed(g.milestones) == g.claimable
  }

  /** With positive amounts that add up to the total, saturation never acts. */
  lemma {:induction false} SaturationIdle(ms: seq<Milestone>)
    requires Positive(ms) && Sum(Amounts(ms)) <= I128_MAX
    ensures SaturatedUnclaimed(ms) == Unclaimed(ms) <= Sum(Amounts(ms))
    ensures Unclaimed(ms) >= 0
  {
    if ms != [] {
      var n := |ms| - 1;
      assert Amounts(ms)[..n] == Amounts(ms[..n]);
      SumNonNegative(Amounts(ms[..n]));
      SaturationIdle(ms[..n]);
    }
  }

  method CheckGrant(g: Grant) returns (r: Result<(), Inconsistency>)
    ensures r.Ok? <==> Consistent(g)
    ensures r == Err(MilestoneSumMismatch) <==>
              !(PrefixesFit(Amounts(g.milestones)) && Sum(Amounts(g.milestones)) == g.total)
    ensures r == Err(ClaimableMismatch) ==> ClaimedOnlyConfirmed(g.milestones) && InOrder(g.milestones)
    ensures r == Err(ClaimedWithoutConfirmation) ==> !ClaimedOnlyConfirmed(g.milestones)
    ensures r == Err(OutOfOrderConfirmation) ==> !InOrder(g.milestones)
  {
    var ms := g.milestones;
    var sum := CheckedFold(Amounts(ms));
    if sum != Some(g.total) {
      return Err(MilestoneSumMismatch);
    }
    var seenUnconfirmed := false;
    var unclaimed: i128 := 0;
    for i := 0 to |ms|
      invariant ClaimedOnlyConfirmed(ms[..i]) && InOrder(ms[..i])
      invariant seenUnconfirmed <==> exists k :: 0 <= k < i && !ms[k].confirmed
      invariant unclaimed == SaturatedUnclaimed(ms[..i])
    {
      assert ms[..i + 1][..i] == ms[..i];
      if ms[i].claimed && !ms[i].confirmed {
        return Err(ClaimedWithoutConfirmation);
      }
      if ms[i].confirmed {
        if seenUnconfirmed {
          return Err(OutOfOrderConfirmation);
        }
        if !ms[i].claimed {
          unclaimed := SaturatingI128(unclaimed + ms[i].amount);
        }
      } else {
        seenUnconfirmed := true;
      }
    }
    assert ms[..|ms|] == ms;
    if unclaimed != g.claimable {
      return Err(ClaimableMismatch);
    }
    return Ok(());
  }

  method CheckedFold(s: seq<int>) returns (r: Option<int>)
    ensures r.Some? <==> PrefixesFit(s)
    ensures r.Some? ==> r.value == Sum(s)
  {
    var sum := 0;
    for i := 0 to |s|
      invariant sum == Sum(s[..i])
      invariant forall n :: 0 <= n <= i ==> FitsI128(Sum(s[..n]))
    {
      SumPrefix(s, i);
      if !FitsI128(sum + s[i]) {
        return None;
      }
      sum := sum + s[i];
    }
    assert s[..|s|] == s;
    return Some(sum);
  }
}
