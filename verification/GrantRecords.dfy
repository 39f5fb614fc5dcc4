/** Grants, milestones and the checks that a stored grant is consistent. */
module GrantRecords {
  import opened Results
  import opened Sums

  datatype Milestone = Milestone(amount: i128, confirmed: bool, claimed: bool)

  datatype Grant = Grant(recipient: nat, total: i128, milestones: seq<Milestone>, claimable: i128)

  function Amounts(ms: seq<Milestone>): (s: seq<int>)
    ensures |s| == |ms|
  {
    seq(|ms|, i requires 0 <= i < |ms| => ms[i].amount)
  }

  /** Confirmed but not yet claimed. */
  function Unclaimed(ms: seq<Milestone>): int {
    if ms == [] then 0
    else
      var m := ms[|ms| - 1];
      Unclaimed(ms[..|ms| - 1]) + if m.confirmed && !m.claimed then m.amount else 0
  }

  /** Not yet claimed, confirmed or not: what the grant still owes. */
  function Owed(ms: seq<Milestone>): int {
    if ms == [] then 0
    else
      var m := ms[|ms| - 1];
      Owed(ms[..|ms| - 1]) + if m.claimed then 0 else m.amount
  }

  predicate ClaimedOnlyConfirmed(ms: seq<Milestone>) {
    forall i :: 0 <= i < |ms| ==> ms[i].claimed ==> ms[i].confirmed
  }

  /** No confirmed milestone has an unconfirmed one before it. */
  predicate InOrder(ms: seq<Milestone>) {
    forall i, j :: 0 <= i < j < |ms| && ms[j].confirmed ==> ms[i].confirmed
  }

  predicate Positive(ms: seq<Milestone>) {
    forall i :: 0 <= i < |ms| ==> ms[i].amount > 0
  }

  lemma {:induction false} UnclaimedBounds(ms: seq<Milestone>)
    requires Positive(ms)
    ensures 0 <= Unclaimed(ms) && 0 <= Owed(ms) <= Sum(Amounts(ms))
    ensures ClaimedOnlyConfirmed(ms) ==> Unclaimed(ms) <= Owed(ms)
  {
    if ms != [] {
      var n := |ms| - 1;
      UnclaimedBounds(ms[..n]);
      assert Amounts(ms)[..n] == Amounts(ms[..n]);
    }
  }

  /** Confirming one milestone moves its amount into the unclaimed total and nothing else. */
  lemma {:induction false} ConfirmOne(ms: seq<Milestone>, k: nat)
    requires k < |ms| && !ms[k].confirmed && !ms[k].claimed
    ensures var ms' := ms[k := ms[k].(confirmed := true)];
            && Unclaimed(ms') == Unclaimed(ms) + ms[k].amount
            && Owed(ms') == Owed(ms)
            && Amounts(ms') == Amounts(ms)
  {
    var n := |ms| - 1;
    var ms' := ms[k := ms[k].(confirmed := true)];
    if k == n {
      assert ms'[..n] == ms[..n];
    } else {
      assert ms'[..n] == ms[..n][k := ms[k].(confirmed := true)];
      ConfirmOne(ms[..n], k);
    }
  }

  /** Marks every confirmed milestone claimed. */
  function ClaimAll(ms: seq<Milestone>): (r: seq<Milestone>)
    ensures |r| == |ms|
    ensures forall i :: 0 <= i < |ms| ==> r[i] == ms[i].(claimed := ms[i].claimed || ms[i].confirmed)
  {
    seq(|ms|, i requires 0 <= i < |ms| => ms[i].(claimed := ms[i].claimed || ms[i].confirmed))
  }

  method MarkClaimed(milestones: seq<Milestone>) returns (ms: seq<Milestone>)
    ensures ms == ClaimAll(milestones)
  {
    ms := milestones;
    for i := 0 to |ms|
      invariant |ms| == |milestones|
      invariant forall k :: 0 <= k < i ==> ms[k] == ClaimAll(milestones)[k]
      invariant forall k :: i <= k < |ms| ==> ms[k] == milestones[k]
    {
      if ms[i].confirmed {
        ms := ms[i := ms[i].(claimed := true)];
      }
    }
  }

  /** Claiming settles exactly the unclaimed total. */
  lemma {:induction false} ClaimSettles(ms: seq<Milestone>)
    ensures Unclaimed(ClaimAll(ms)) == 0
    ensures Owed(ClaimAll(ms)) == Owed(ms) - Unclaimed(ms)
    ensures Amounts(ClaimAll(ms)) == Amounts(ms)
  {
    if ms != [] {
      var n := |ms| - 1;
      assert ClaimAll(ms)[..n] == ClaimAll(ms[..n]);
      ClaimSettles(ms[..n]);
    }
  }
}
