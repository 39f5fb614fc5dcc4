/** What every bounty call keeps: the reservations against the pool, and reports against commitments. */
module BountyReserves {
  import opened Results
  import opened Sums
  import opened Bounty

  function Held(p: Payout): int {
    if p.status.Pending? then p.amount else 0
  }

  function HeldAward(a: CommitmentAward): int {
    if a.open then a.amount else 0
  }

  function PayoutHolds(s: State): map<nat, int> {
    map id | id in s.payouts :: Held(s.payouts[id])
  }

  function AwardHolds(s: State): map<nat, int> {
    map c | c in s.commitmentAwards :: HeldAward(s.commitmentAwards[c])
  }

  /** What pending payouts and open commitment awards add up to. */
  ghost function Committed(s: State): int {
    MapSum(PayoutHolds(s)) + MapSum(AwardHolds(s))
  }

  ghost predicate AmountsPositive(s: State) {
    && (forall id :: id in s.payouts ==> id < s.nextPayoutId && s.payouts[id].amount > 0)
    && (forall c :: c in s.commitmentAwards ==> s.commitmentAwards[c].amount > 0)
  }

  ghost predicate Reserves(s: State) {
    AmountsPositive(s) && s.reserved == Committed(s) && 0 <= s.reserved <= s.balance
  }

  /** A report has one commitment, and a commitment one report. */
  ghost predicate Injective(disclosures: map<nat, nat>, used: set<nat>) {
    && (forall r :: r in disclosures ==> disclosures[r] in used)
    && (forall q, r :: q in disclosures && r in disclosures && disclosures[q] == disclosures[r] ==> q == r)
  }

  /** A commitment award names the report its commitment was disclosed for; once claimed, the report is awarded. */
  ghost predicate AwardLinked(s: State, c: nat)
    requires c in s.commitmentAwards
  {
    var a := s.commitmentAwards[c];
    && a.commitment == c && a.reportHash in s.disclosures && s.disclosures[a.reportHash] == c
    && (!a.open ==> a.reportHash in s.awards)
  }

  ghost predicate Linked(s: State) {
    Injective(s.disclosures, s.used) && forall c :: c in s.commitmentAwards ==> AwardLinked(s, c)
  }

  ghost predicate Inv(s: State) {
    Reserves(s) && Linked(s)
  }

  lemma HoldsWithin(s: State)
    requires Reserves(s)
    ensures forall id :: id in s.payouts ==> 0 <= Held(s.payouts[id]) <= s.reserved
    ensures forall c :: c in s.commitmentAwards ==> 0 <= HeldAward(s.commitmentAwards[c]) <= s.reserved
  {
    MapSumNonNegative(PayoutHolds(s));
    MapSumNonNegative(AwardHolds(s));
    assert forall id :: id in s.payouts ==> PayoutHolds(s)[id] == Held(s.payouts[id]);
    assert forall c :: c in s.commitmentAwards ==> AwardHolds(s)[c] == HeldAward(s.commitmentAwards[c]);
  }

  lemma PutPayout(s: State, t: State, id: nat)
    requires id in t.payouts && t.payouts == s.payouts[id := t.payouts[id]]
    requires t.commitmentAwards == s.commitmentAwards
    ensures Committed(t) == Committed(s) - (if id in s.payouts then Held(s.payouts[id]) else 0) + Held(t.payouts[id])
  {
    MapSumUpdate(PayoutHolds(s), id, Held(t.payouts[id]));
    assert PayoutHolds(t) == PayoutHolds(s)[id := Held(t.payouts[id])];
    assert AwardHolds(t) == AwardHolds(s);
  }

  lemma PutAward(s: State, t: State, c: nat)
    requires c in t.commitmentAwards && t.commitmentAwards == s.commitmentAwards[c := t.commitmentAwards[c]]
    requires t.payouts == s.payouts
    ensures Committed(t) == Committed(s) - (if c in s.commitmentAwards then HeldAward(s.commitmentAwards[c]) else 0)
                          + HeldAward(t.commitmentAwards[c])
  {
    MapSumUpdate(AwardHolds(s), c, HeldAward(t.commitmentAwards[c]));
    assert AwardHolds(t) == AwardHolds(s)[c := HeldAward(t.commitmentAwards[c])];
    assert PayoutHolds(t) == PayoutHolds(s);
  }

  lemma SameHolds(s: State, t: State)
    requires Reserves(s)
    requires t.payouts == s.payouts && t.commitmentAwards == s.commitmentAwards
    requires t.nextPayoutId == s.nextPayoutId && t.reserved == s.reserved <= t.balance
    ensures Reserves(t)
  {
    assert PayoutHolds(t) == PayoutHolds(s) && AwardHolds(t) == AwardHolds(s);
  }

  lemma CreatePayoutReserves(s: State, caller: nat, recipient: nat, amount: i128, deadline: u64, now: u64)
    requires Reserves(s)
    ensures Reserves(DoCreatePayout(s, caller, recipient, amount, deadline, now).0)
  {
    var (t, r) := DoCreatePayout(s, caller, recipient, amount, deadline, now);
    if r.Ok? {
      PutPayout(s, t, s.nextPayoutId);
    }
  }

  /** Neither subtraction of a settlement can fail or go below zero. */
  lemma SettleReserves(s: State, id: u64, status: PayoutStatus, transferOk: bool)
    requires Reserves(s) && id in s.payouts && s.payouts[id].status.Pending? && !status.Pending?
    ensures var (t, r) := Settle(s, id, status, transferOk);
            && Reserves(t)
            && r == if transferOk then Ok(s.payouts[id].amount) else Err(Trapped)
  {
    HoldsWithin(s);
    assert Held(s.payouts[id]) == s.payouts[id].amount;
    var (t, r) := Settle(s, id, status, transferOk);
    if r.Ok? {
      PutPayout(s, t, id);
    }
  }

  lemma AwardCommitmentReserves(s: State, caller: nat, reportHash: nat, commitment: nat, amount: i128, now: u64)
    requires Reserves(s)
    ensures var (t, r) := DoAwardCommitment(s, caller, reportHash, commitment, amount, now);
            Reserves(t)
  {
    var (t, r) := DoAwardCommitment(s, caller, reportHash, commitment, amount, now);
    if r.Ok? {
      PutAward(s, t, commitment);
    }
  }

  lemma ClaimByCommitmentReserves(s: State, caller: nat, commitment: nat, transferOk: bool, now: u64)
    requires Reserves(s)
    ensures var (t, r) := DoClaimByCommitment(s, caller, commitment, transferOk, now);
            Reserves(t) && (r == Err(Trapped) ==> !transferOk)
  {
    HoldsWithin(s);
    var (t, r) := DoClaimByCommitment(s, caller, commitment, transferOk, now);
    if commitment in s.commitmentAwards && s.commitmentAwards[commitment].open {
      assert HeldAward(s.commitmentAwards[commitment]) == s.commitmentAwards[commitment].amount;
    }
    if r.Ok? {
      PutAward(s, t, commitment);
    }
  }

  /** The calls that settle and reserve nothing. */
  lemma QuietStep(sha: nat -> nat, s: State, call: Call)
    requires call.op.SetGovernance? || call.op.Fund? || call.op.AwardNow? || call.op.Disclose? || call.op.Register?
             || call.op.Rotate? || call.op.Freeze? || call.op.Screen?
    ensures var t := Step(sha, s, call).0;
            && t.payouts == s.payouts && t.commitmentAwards == s.commitmentAwards
            && t.nextPayoutId == s.nextPayoutId && t.reserved == s.reserved
            && (s.reserved <= s.balance ==> s.reserved <= t.balance)
  {
  }

  lemma StepKeepsReserves(sha: nat -> nat, s: State, call: Call)
    requires Reserves(s)
    ensures Reserves(Step(sha, s, call).0)
  {
    match call.op {
      case CreatePayout(caller, recipient, amount, deadline) =>
        CreatePayoutReserves(s, caller, recipient, amount, deadline, call.now);
      case Claim(_, id, transferOk) =>
        if id in s.payouts && s.payouts[id].status.Pending? {
          SettleReserves(s, id, Claimed, transferOk);
        }
      case Sweep(id, transferOk) =>
        if id in s.payouts && s.payouts[id].status.Pending? {
          SettleReserves(s, id, Swept, transferOk);
        }
      case AwardCommitment(caller, reportHash, commitment, amount) =>
        AwardCommitmentReserves(s, caller, reportHash, commitment, amount, call.now);
      case ClaimByCommitment(caller, preimage, transferOk) =>
        ClaimByCommitmentReserves(s, caller, sha(preimage), transferOk, call.now);
      case _ =>
        QuietStep(sha, s, call);
        SameHolds(s, Step(sha, s, call).0);
    }
  }

  lemma SameLinks(s: State, t: State)
    requires Linked(s)
    requires t.disclosures == s.disclosures && t.used == s.used && t.commitmentAwards == s.commitmentAwards
    requires forall r :: r in s.awards ==> r in t.awards
    ensures Linked(t)
  {
    forall c | c in t.commitmentAwards
      ensures AwardLinked(t, c)
    {
      assert AwardLinked(s, c);
    }
  }

  lemma AddDisclosure(disclosures: map<nat, nat>, used: set<nat>, r: nat, c: nat)
    requires Injective(disclosures, used)
    requires r !in disclosures && c !in used
    ensures Injective(disclosures[r := c], used + {c})
  {
  }

  lemma DiscloseLinks(s: State, reportHash: nat, commitment: nat)
    requires Linked(s)
    ensures Linked(DoDisclose(s, reportHash, commitment).0)
  {
    var (t, r) := DoDisclose(s, reportHash, commitment);
    if r.Ok? {
      AddDisclosure(s.disclosures, s.used, reportHash, commitment);
      forall c | c in t.commitmentAwards
        ensures AwardLinked(t, c)
      {
        assert AwardLinked(s, c);
      }
    }
  }

  lemma AwardCommitmentLinks(s: State, caller: nat, reportHash: nat, commitment: nat, amount: i128, now: u64)
    requires Linked(s)
    ensures Linked(DoAwardCommitment(s, caller, reportHash, commitment, amount, now).0)
  {
    var (t, r) := DoAwardCommitment(s, caller, reportHash, commitment, amount, now);
    if r.Ok? {
      if reportHash !in s.disclosures {
        AddDisclosure(s.disclosures, s.used, reportHash, commitment);
      }
      forall c | c in t.commitmentAwards
        ensures AwardLinked(t, c)
      {
        assert c in s.commitmentAwards ==> AwardLinked(s, c);
      }
    }
  }

  lemma ClaimByCommitmentLinks(s: State, caller: nat, commitment: nat, transferOk: bool, now: u64)
    requires Linked(s)
    ensures Linked(DoClaimByCommitment(s, caller, commitment, transferOk, now).0)
  {
    var (t, r) := DoClaimByCommitment(s, caller, commitment, transferOk, now);
    if r.Ok? {
      forall c | c in t.commitmentAwards
        ensures AwardLinked(t, c)
      {
        assert AwardLinked(s, c);
      }
    }
  }

  /** The calls that link no report to a commitment. */
  lemma UnlinkedStep(sha: nat -> nat, s: State, call: Call)
    requires !call.op.AwardNow? && !call.op.Disclose? && !call.op.AwardCommitment? && !call.op.ClaimByCommitment?
    ensures var t := Step(sha, s, call).0;
            && t.disclosures == s.disclosures && t.used == s.used && t.commitmentAwards == s.commitmentAwards
            && t.awards == s.awards
  {
    if call.op.Claim? || call.op.Sweep? {
      PullStep(sha, s, call);
    } else if call.op.Register? || call.op.Rotate? {
      BindingStep(sha, s, call);
    }
  }

  lemma BindingStep(sha: nat -> nat, s: State, call: Call)
    requires call.op.Register? || call.op.Rotate?
    ensures var t := Step(sha, s, call).0;
            t == s.(bindings := t.bindings)
  {
  }

  lemma PullStep(sha: nat -> nat, s: State, call: Call)
    requires call.op.Claim? || call.op.Sweep?
    ensures var t := Step(sha, s, call).0;
            t == s.(payouts := t.payouts, reserved := t.reserved, balance := t.balance)
  {
  }

  lemma StepKeepsLinks(sha: nat -> nat, s: State, call: Call)
    requires Linked(s)
    ensures Linked(Step(sha, s, call).0)
  {
    match call.op {
      case Disclose(reportHash, commitment) => DiscloseLinks(s, reportHash, commitment);
      case AwardCommitment(caller, reportHash, commitment, amount) =>
        AwardCommitmentLinks(s, caller, reportHash, commitment, amount, call.now);
      case ClaimByCommitment(caller, preimage, transferOk) =>
        ClaimByCommitmentLinks(s, caller, sha(preimage), transferOk, call.now);
      case AwardNow(caller, researcher, amount, reportHash, transferOk) =>
        SameLinks(s, DoAward(s, caller, researcher, amount, reportHash, transferOk, call.now).0);
      case _ =>
        UnlinkedStep(sha, s, call);
        SameLinks(s, Step(sha, s, call).0);
    }
  }

  lemma {:induction false} RunKeeps(sha: nat -> nat, s: State, calls: seq<Call>)
    requires Inv(s)
    ensures Inv(Run(sha, s, calls))
  {
    if calls != [] {
      var n := |calls| - 1;
      RunKeeps(sha, s, calls[..n]);
      StepKeepsReserves(sha, Run(sha, s, calls[..n]), calls[n]);
      StepKeepsLinks(sha, Run(sha, s, calls[..n]), calls[n]);
    }
  }

  /** A claim or a sweep is refused for the documented reasons only, never for the arithmetic. */
  lemma PullsSucceed(s: State, caller: nat, id: u64, now: u64)
    requires Reserves(s)
    ensures DoClaim(s, caller, id, true).1.Ok? <==>
              id in s.payouts && s.payouts[id].recipient == caller && s.payouts[id].status.Pending?
    ensures DoSweep(s, id, true, now).1.Ok? <==>
              id in s.payouts && now >= s.payouts[id].deadline && s.payouts[id].status.Pending?
  {
    if id in s.payouts && s.payouts[id].status.Pending? {
      SettleReserves(s, id, Claimed, true);
      SettleReserves(s, id, Swept, true);
    }
  }

  /** Likewise for a claim by commitment, whose unchecked subtractions never leave less than nothing. */
  lemma CommitmentClaimSucceeds(s: State, caller: nat, c: nat, now: u64)
    requires Reserves(s)
    ensures c in s.commitmentAwards && s.commitmentAwards[c].open ==>
              0 < s.commitmentAwards[c].amount <= s.reserved <= s.balance
    ensures var (t, r) := DoClaimByCommitment(s, caller, c, true, now);
            r.Ok? ==>
              && r.value == s.commitmentAwards[c].amount
              && t.reserved == s.reserved - r.value && t.balance == s.balance - r.value
              && 0 <= t.reserved <= t.balance
    ensures DoClaimByCommitment(s, caller, c, true, now).1.Ok? <==>
              && c in s.commitmentAwards && s.commitmentAwards[c].open
              && c in s.bindings && now <= s.bindings[c].expiresAt
              && (caller == s.bindings[c].owner || caller == s.bindings[c].payoutAddress)
              && s.bindings[c].payoutAddress !in s.frozen
  {
    ClaimByCommitmentReserves(s, caller, c, true, now);
    HoldsWithin(s);
    if c in s.commitmentAwards {
      assert HeldAward(s.commitmentAwards[c]) <= s.reserved;
    }
  }
}
