/** The bounty escrow over whole runs: money, settlement, expiry, and payments per report. */
module BountyRuns {
  import opened Results
  import opened Bounty
  import opened BountyReserves
  import opened Sums

  // ---------------------------------------------------------------------
  // Money over whole runs
  // ---------------------------------------------------------------------

  datatype Flow = Flow(funded: int, paid: int, swept: int)

  function Flowing(op: Op, r: Result<int, BountyError>): Flow {
    if r.Err? then Flow(0, 0, 0)
    else
      match op
      case Fund(amount, _) => Flow(amount, 0, 0)
      case AwardNow(_, _, amount, _, _) => Flow(0, amount, 0)
      case Claim(_, _, _) => Flow(0, r.value, 0)
      case ClaimByCommitment(_, _, _) => Flow(0, r.value, 0)
      case Sweep(_, _) => Flow(0, 0, r.value)
      case _ => Flow(0, 0, 0)
  }

  function FlowOf(sha: nat -> nat, s: State, call: Call): Flow {
    Flowing(call.op, Step(sha, s, call).1)
  }

  function RunFlow(sha: nat -> nat, s: State, calls: seq<Call>): Flow {
    if calls == [] then Flow(0, 0, 0)
    else
      var n := |calls| - 1;
      var f := RunFlow(sha, s, calls[..n]);
      var g := FlowOf(sha, Run(sha, s, calls[..n]), calls[n]);
      Flow(f.funded + g.funded, f.paid + g.paid, f.swept + g.swept)
  }

  lemma StepBalance(sha: nat -> nat, s: State, call: Call)
    ensures var f := FlowOf(sha, s, call);
            Step(sha, s, call).0.balance == s.balance + f.funded - f.paid - f.swept
  {
    if call.op.Claim? || call.op.Sweep? || call.op.ClaimByCommitment? {
      SettlingBalance(sha, s, call);
    } else if !call.op.Fund? && !call.op.AwardNow? {
      FlatBalance(sha, s, call);
    }
  }

  lemma FlatBalance(sha: nat -> nat, s: State, call: Call)
    requires !call.op.Claim? && !call.op.Sweep? && !call.op.ClaimByCommitment?
    requires !call.op.Fund? && !call.op.AwardNow?
    ensures Step(sha, s, call).0.balance == s.balance && FlowOf(sha, s, call) == Flow(0, 0, 0)
  {
  }

  lemma SettlingBalance(sha: nat -> nat, s: State, call: Call)
    requires call.op.Claim? || call.op.Sweep? || call.op.ClaimByCommitment?
    ensures var (t, r) := Step(sha, s, call);
            t.balance == s.balance - if r.Ok? then r.value else 0
  {
  }

  /**
   * Over every run: what was funded was paid out, swept, or is in the pool;
   * and the pool covers every pending payout and open award.
   */
  lemma {:induction false} RunConserves(sha: nat -> nat, governance: nat, calls: seq<Call>)
    ensures var t := Run(sha, Initial(governance), calls);
            var f := RunFlow(sha, Initial(governance), calls);
            && Inv(t)
            && f.funded == f.paid + f.swept + t.balance
            && 0 <= Committed(t) == t.reserved <= t.balance
  {
    var s := Initial(governance);
    assert PayoutHolds(s) == map[] && AwardHolds(s) == map[];
    RunKeeps(sha, s, calls);
    if calls != [] {
      var n := |calls| - 1;
      RunConserves(sha, governance, calls[..n]);
      StepBalance(sha, Run(sha, s, calls[..n]), calls[n]);
    }
  }

  // ---------------------------------------------------------------------
  // Settled at most once
  // ---------------------------------------------------------------------

  /** The call moves the money of payout `id`. */
  predicate MovesPayout(sha: nat -> nat, s: State, call: Call, id: nat) {
    Step(sha, s, call).1.Ok?
    && ((call.op.Claim? && call.op.id == id) || (call.op.Sweep? && call.op.id == id))
  }

  /** The call moves the money awarded to commitment `c`. */
  predicate MovesAward(sha: nat -> nat, s: State, call: Call, c: nat) {
    Step(sha, s, call).1.Ok? && call.op.ClaimByCommitment? && sha(call.op.preimage) == c
  }

  function PayoutMoves(sha: nat -> nat, s: State, calls: seq<Call>, id: nat): nat {
    if calls == [] then 0
    else
      var n := |calls| - 1;
      PayoutMoves(sha, s, calls[..n], id)
      + if MovesPayout(sha, Run(sha, s, calls[..n]), calls[n], id) then 1 else 0
  }

  function AwardMoves(sha: nat -> nat, s: State, calls: seq<Call>, c: nat): nat {
    if calls == [] then 0
    else
      var n := |calls| - 1;
      AwardMoves(sha, s, calls[..n], c)
      + if MovesAward(sha, Run(sha, s, calls[..n]), calls[n], c) then 1 else 0
  }

  lemma StepPayout(sha: nat -> nat, s: State, call: Call, id: nat)
    requires AmountsPositive(s) && id in s.payouts
    ensures var t := Step(sha, s, call).0;
            && id in t.payouts && t.payouts[id] == s.payouts[id].(status := t.payouts[id].status)
            && (if MovesPayout(sha, s, call, id) then s.payouts[id].status.Pending? && !t.payouts[id].status.Pending?
                else t.payouts[id] == s.payouts[id])
  {
    match call.op {
      case CreatePayout(_, _, _, _) =>
      case Claim(_, _, _) =>
      case Sweep(_, _) =>
      case ClaimByCommitment(_, _, _) =>
      case AwardNow(_, _, _, _, _) =>
      case _ =>
    }
  }

  lemma StepCommitment(sha: nat -> nat, s: State, call: Call, c: nat)
    requires c in s.commitmentAwards
    ensures var t := Step(sha, s, call).0;
            && c in t.commitmentAwards
            && t.commitmentAwards[c] == s.commitmentAwards[c].(open := t.commitmentAwards[c].open)
            && (if MovesAward(sha, s, call, c) then s.commitmentAwards[c].open && !t.commitmentAwards[c].open
                else t.commitmentAwards[c] == s.commitmentAwards[c])
  {
    match call.op {
      case AwardCommitment(_, _, _, _) =>
      case ClaimByCommitment(_, _, _) =>
      case Claim(_, _, _) =>
      case Sweep(_, _) =>
      case AwardNow(_, _, _, _, _) =>
      case _ =>
    }
  }

  /** A payout's money moves once, by a claim or by a sweep, exactly when it stops being pending; nothing else changes. */
  lemma {:induction false} PayoutSettledOnce(sha: nat -> nat, s: State, calls: seq<Call>, id: nat)
    requires Inv(s) && id in s.payouts
    ensures var t := Run(sha, s, calls);
            && id in t.payouts && t.payouts[id] == s.payouts[id].(status := t.payouts[id].status)
            && PayoutMoves(sha, s, calls, id)
               == (if s.payouts[id].status.Pending? && !t.payouts[id].status.Pending? then 1 else 0)
            && (!s.payouts[id].status.Pending? ==> t.payouts[id] == s.payouts[id])
  {
    if calls != [] {
      var n := |calls| - 1;
      PayoutSettledOnce(sha, s, calls[..n], id);
      RunKeeps(sha, s, calls[..n]);
      StepPayout(sha, Run(sha, s, calls[..n]), calls[n], id);
    }
  }

  lemma {:induction false} AwardSettledOnce(sha: nat -> nat, s: State, calls: seq<Call>, c: nat)
    requires c in s.commitmentAwards
    ensures var t := Run(sha, s, calls);
            && c in t.commitmentAwards
            && t.commitmentAwards[c] == s.commitmentAwards[c].(open := t.commitmentAwards[c].open)
            && AwardMoves(sha, s, calls, c)
               == (if s.commitmentAwards[c].open && !t.commitmentAwards[c].open then 1 else 0)
            && (!s.commitmentAwards[c].open ==> !t.commitmentAwards[c].open)
  {
    if calls != [] {
      var n := |calls| - 1;
      AwardSettledOnce(sha, s, calls[..n], c);
      StepCommitment(sha, Run(sha, s, calls[..n]), calls[n], c);
    }
  }

  // ---------------------------------------------------------------------
  // Expired bindings
  // ---------------------------------------------------------------------

  predicate Expired(s: State, c: nat, now: u64) {
    c in s.bindings && now > s.bindings[c].expiresAt
  }

  predicate From(calls: seq<Call>, now: u64) {
    forall i :: 0 <= i < |calls| ==> calls[i].now >= now
  }

  ghost predicate ClaimedAfter(sha: nat -> nat, s: State, calls: seq<Call>, c: nat, now: u64) {
    From(calls, now) && ClaimedAward(Run(sha, s, calls).commitmentAwards, c)
  }

  predicate ClaimedAward(awards: map<nat, CommitmentAward>, c: nat) {
    c in awards && !awards[c].open
  }

  lemma StepKeepsExpired(sha: nat -> nat, s: State, call: Call, c: nat)
    requires Expired(s, c, call.now)
    ensures var t := Step(sha, s, call).0;
            && c in t.bindings && t.bindings[c] == s.bindings[c]
            && (c in s.commitmentAwards && s.commitmentAwards[c].open ==>
                  c in t.commitmentAwards && t.commitmentAwards[c] == s.commitmentAwards[c])
  {
    match call.op {
      case Register(_, _, _) =>
      case Rotate(_, _, _) =>
      case AwardCommitment(_, _, _, _) =>
      case ClaimByCommitment(_, _, _) =>
      case Claim(_, _, _) =>
      case Sweep(_, _) =>
      case _ =>
    }
  }

  /** An expired binding is never rotated or replaced, and what it guards is never claimed. */
  lemma {:induction false} ExpiredForever(sha: nat -> nat, s: State, calls: seq<Call>, c: nat, now: u64)
    requires Expired(s, c, now) && From(calls, now)
    requires c in s.commitmentAwards && s.commitmentAwards[c].open
    ensures var t := Run(sha, s, calls);
            && c in t.bindings && t.bindings[c] == s.bindings[c]
            && c in t.commitmentAwards && t.commitmentAwards[c] == s.commitmentAwards[c]
  {
    if calls != [] {
      var n := |calls| - 1;
      ExpiredForever(sha, s, calls[..n], c, now);
      StepKeepsExpired(sha, Run(sha, s, calls[..n]), calls[n], c);
    }
  }

  /**
   * An open award can still be claimed by some later calls if and only if its
   * binding has not expired: contrary to the field's comment, an expired
   * binding cannot be refreshed, and the award stays reserved for good.
   */
  lemma ClaimableUnlessExpired(sha: nat -> nat, s: State, preimage: nat, now: u64)
    requires Inv(s) && sha(preimage) in s.commitmentAwards && s.commitmentAwards[sha(preimage)].open
    ensures (exists calls :: ClaimedAfter(sha, s, calls, sha(preimage), now)) <==> !Expired(s, sha(preimage), now)
  {
    var c := sha(preimage);
    if Expired(s, c, now) {
      forall calls | From(calls, now)
        ensures !ClaimedAfter(sha, s, calls, c, now)
      {
        ExpiredForever(sha, s, calls, c, now);
      }
    } else {
      var calls := ClaimPlan(sha, s, preimage, now);
      assert ClaimedAfter(sha, s, calls, c, now);
    }
  }

  /** Governance unfreezes the address, the address is bound if it is not yet, and its owner claims. */
  lemma ClaimPlan(sha: nat -> nat, s: State, preimage: nat, now: u64) returns (calls: seq<Call>)
    requires Inv(s) && sha(preimage) in s.commitmentAwards && s.commitmentAwards[sha(preimage)].open
    requires !Expired(s, sha(preimage), now)
    ensures ClaimedAfter(sha, s, calls, sha(preimage), now)
  {
    if sha(preimage) in s.bindings {
      calls := BoundPlan(sha, s, preimage, now);
    } else {
      calls := UnboundPlan(sha, s, preimage, now);
    }
  }

  lemma BoundPlan(sha: nat -> nat, s: State, preimage: nat, now: u64) returns (calls: seq<Call>)
    requires Inv(s) && sha(preimage) in s.commitmentAwards && s.commitmentAwards[sha(preimage)].open
    requires sha(preimage) in s.bindings && !Expired(s, sha(preimage), now)
    ensures ClaimedAfter(sha, s, calls, sha(preimage), now)
  {
    var a := s.bindings[sha(preimage)].payoutAddress;
    var thaw, t := Call(Freeze(s.governance, a, false), now), s.(frozen := s.frozen - {a});
    ThawStep(sha, s, a, now);
    Reaches(sha, s, [], thaw, t);
    calls := FinishPlan(sha, s, [thaw], t, a, preimage, now);
  }

  lemma UnboundPlan(sha: nat -> nat, s: State, preimage: nat, now: u64) returns (calls: seq<Call>)
    requires Inv(s) && sha(preimage) in s.commitmentAwards && s.commitmentAwards[sha(preimage)].open
    requires sha(preimage) !in s.bindings
    ensures ClaimedAfter(sha, s, calls, sha(preimage), now)
  {
    var c := sha(preimage);
    var thaw, t := Call(Freeze(s.governance, 0, false), now), s.(frozen := s.frozen - {0});
    var bind, u := Call(Register(0, preimage, 0), now), t.(bindings := t.bindings[c := NewBinding(0, 0, now)]);
    ThawStep(sha, s, 0, now);
    Reaches(sha, s, [], thaw, t);
    BindStep(sha, t, 0, preimage, now);
    Reaches(sha, s, [thaw], bind, u);
    calls := FinishPlan(sha, s, [thaw] + [bind], u, 0, preimage, now);
  }

  /** Once the bound address is not frozen, a claim from it pays the award. */
  lemma FinishPlan(sha: nat -> nat, s: State, before: seq<Call>, t: State, a: nat, preimage: nat, now: u64)
    returns (calls: seq<Call>)
    requires Inv(s) && Run(sha, s, before) == t == s.(frozen := t.frozen, bindings := t.bindings) && From(before, now)
    requires sha(preimage) in t.commitmentAwards && t.commitmentAwards[sha(preimage)].open
    requires sha(preimage) in t.bindings && now <= t.bindings[sha(preimage)].expiresAt
    requires a == t.bindings[sha(preimage)].payoutAddress && a !in t.frozen
    ensures ClaimedAfter(sha, s, calls, sha(preimage), now)
  {
    var claim := Call(ClaimByCommitment(a, preimage, true), now);
    Unrelated(s, t);
    ClaimNow(t, a, sha(preimage), now);
    ClaimStep(sha, t, claim);
    Reaches(sha, s, before, claim, DoClaimByCommitment(t, a, sha(preimage), true, now).0);
    calls := before + [claim];
  }

  lemma Reaches(sha: nat -> nat, s: State, calls: seq<Call>, call: Call, t: State)
    requires Step(sha, Run(sha, s, calls), call).0 == t
    ensures Run(sha, s, calls + [call]) == t
    ensures calls == [] ==> Run(sha, s, [call]) == t
  {
    assert (calls + [call])[..|calls|] == calls;
    assert calls == [] ==> calls + [call] == [call];
  }

  lemma ThawStep(sha: nat -> nat, s: State, a: nat, now: u64)
    ensures Step(sha, s, Call(Freeze(s.governance, a, false), now)).0 == s.(frozen := s.frozen - {a})
  {
  }

  lemma BindStep(sha: nat -> nat, s: State, a: nat, preimage: nat, now: u64)
    requires a !in s.frozen && sha(preimage) !in s.bindings
    ensures Step(sha, s, Call(Register(a, preimage, a), now)).0
         == s.(bindings := s.bindings[sha(preimage) := NewBinding(a, a, now)])
  {
  }

  lemma ClaimStep(sha: nat -> nat, s: State, call: Call)
    requires call.op.ClaimByCommitment?
    ensures Step(sha, s, call)
         == DoClaimByCommitment(s, call.op.caller, sha(call.op.preimage), call.op.transferOk, call.now)
  {
  }

  lemma Unrelated(s: State, t: State)
    requires Inv(s) && t == s.(frozen := t.frozen, bindings := t.bindings)
    ensures Inv(t)
  {
    SameHolds(s, t);
    SameLinks(s, t);
  }

  lemma ClaimNow(s: State, a: nat, c: nat, now: u64)
    requires Inv(s) && c in s.commitmentAwards && s.commitmentAwards[c].open
    requires c in s.bindings && now <= s.bindings[c].expiresAt && a == s.bindings[c].payoutAddress && a !in s.frozen
    ensures ClaimedAward(DoClaimByCommitment(s, a, c, true, now).0.commitmentAwards, c)
  {
    ClaimByCommitmentReserves(s, a, c, true, now);
  }

  /** The state after the calls of `AwardAndBind`. */
  function Stranded(governance: nat, owner: nat, r: nat, c: nat, now: u64): State {
    Initial(governance).(
      balance := 1, reserved := 1, disclosures := map[r := c], used := {c},
      commitmentAwards := map[c := CommitmentAward(r, c, 1, now, true)],
      bindings := map[c := NewBinding(owner, owner, now)])
  }

  /** Fund, award a commitment, bind it. */
  function AwardAndBind(governance: nat, owner: nat, r: nat, c: nat, preimage: nat, now: u64): seq<Call> {
    [Call(Fund(1, true), now), Call(AwardCommitment(governance, r, c, 1), now), Call(Register(owner, preimage, owner), now)]
  }

  lemma ThreeCalls(sha: nat -> nat, governance: nat, owner: nat, r: nat, preimage: nat, now: u64)
    ensures Run(sha, Initial(governance), AwardAndBind(governance, owner, r, sha(preimage), preimage, now))
         == Stranded(governance, owner, r, sha(preimage), now)
  {
    var c, start := sha(preimage), Initial(governance);
    var c0, c1, c2 := Call(Fund(1, true), now), Call(AwardCommitment(governance, r, c, 1), now),
                      Call(Register(owner, preimage, owner), now);
    var s1 := start.(balance := 1);
    Snoc(sha, start, [], c0, s1, r, 0);
    var s2 := s1.(disclosures := map[r := c], used := {c}, reserved := 1,
                  commitmentAwards := map[c := CommitmentAward(r, c, 1, now, true)]);
    assert [] + [c0] == [c0];
    Snoc(sha, start, [c0], c1, s2, r, 0);
    assert [c0] + [c1] == [c0, c1];
    Snoc(sha, start, [c0, c1], c2, Stranded(governance, owner, r, c, now), r, 0);
    assert [c0, c1] + [c2] == [c0, c1, c2];
  }

  /** When the binding then expires, the unit awarded stays reserved for good. */
  lemma StrandedAward(sha: nat -> nat, governance: nat, owner: nat, r: nat, preimage: nat, now: u64, more: seq<Call>,
                      later: u64)
    requires later > SaturatingAddU64(now, DEFAULT_BINDING_TTL_SECS) && From(more, later)
    ensures var calls := AwardAndBind(governance, owner, r, sha(preimage), preimage, now);
            var t := Run(sha, Run(sha, Initial(governance), calls), more);
            && sha(preimage) in t.commitmentAwards && t.commitmentAwards[sha(preimage)].open
            && 1 <= t.reserved <= t.balance
  {
    ThreeCalls(sha, governance, owner, r, preimage, now);
    RunConserves(sha, governance, AwardAndBind(governance, owner, r, sha(preimage), preimage, now));
    StaysReserved(sha, Stranded(governance, owner, r, sha(preimage), now), more, sha(preimage), later);
  }

  lemma StaysReserved(sha: nat -> nat, s: State, more: seq<Call>, c: nat, now: u64)
    requires Inv(s) && c in s.commitmentAwards && s.commitmentAwards[c].open
    requires Expired(s, c, now) && From(more, now)
    ensures var t := Run(sha, s, more);
            && c in t.commitmentAwards && t.commitmentAwards[c].open
            && s.commitmentAwards[c].amount <= t.reserved <= t.balance
  {
    ExpiredForever(sha, s, more, c, now);
    RunKeeps(sha, s, more);
    HoldsWithin(Run(sha, s, more));
    assert HeldAward(Run(sha, s, more).commitmentAwards[c]) == s.commitmentAwards[c].amount;
  }

  // ---------------------------------------------------------------------
  // One payment per report
  // ---------------------------------------------------------------------

  /** The call pays the reward of report `r`. */
  predicate PaysReport(sha: nat -> nat, s: State, call: Call, r: nat) {
    Step(sha, s, call).1.Ok?
    && match call.op
       case AwardNow(_, _, _, reportHash, _) => reportHash == r
       case ClaimByCommitment(_, preimage, _) =>
         sha(preimage) in s.commitmentAwards && s.commitmentAwards[sha(preimage)].reportHash == r
       case _ => false
  }

  function Payments(sha: nat -> nat, s: State, calls: seq<Call>, r: nat): nat {
    if calls == [] then 0
    else
      var n := |calls| - 1;
      Payments(sha, s, calls[..n], r) + if PaysReport(sha, Run(sha, s, calls[..n]), calls[n], r) then 1 else 0
  }

  /** The report has a commitment award that has not been claimed. */
  predicate OpenFor(s: State, r: nat) {
    r in s.disclosures && s.disclosures[r] in s.commitmentAwards && s.commitmentAwards[s.disclosures[r]].open
  }

  /** What the legacy push award does not check. */
  predicate Guarded(s: State, call: Call) {
    call.op.AwardNow? ==> !OpenFor(s, call.op.reportHash)
  }

  /** Every call was guarded when it was made. */
  predicate GuardedThroughout(sha: nat -> nat, s: State, calls: seq<Call>) {
    calls != [] ==>
      var n := |calls| - 1;
      GuardedThroughout(sha, s, calls[..n]) && Guarded(Run(sha, s, calls[..n]), calls[n])
  }

  /** What one call does to a report that is, or is not, awarded. */
  lemma StepReport(sha: nat -> nat, s: State, call: Call, r: nat)
    requires Linked(s)
    ensures var t := Step(sha, s, call).0;
            if PaysReport(sha, s, call, r) then
              r in t.awards && (call.op.AwardNow? || (OpenFor(s, r) && !OpenFor(t, r)))
            else
              && (r in t.awards <==> r in s.awards) && (r in s.awards ==> t.awards[r] == s.awards[r])
              && (r in s.awards && OpenFor(t, r) ==> OpenFor(s, r))
  {
    match call.op {
      case AwardNow(_, _, _, _, _) =>
      case Disclose(_, _) =>
      case AwardCommitment(_, _, _, _) =>
      case ClaimByCommitment(_, _, _) =>
        ClaimReport(s, call.op.caller, sha(call.op.preimage), call.op.transferOk, call.now, r);
        ClaimStep(sha, s, call);
      case _ =>
        UnlinkedStep(sha, s, call);
    }
  }

  lemma ClaimReport(s: State, caller: nat, c: nat, transferOk: bool, now: u64, r: nat)
    requires Linked(s)
    ensures var (t, q) := DoClaimByCommitment(s, caller, c, transferOk, now);
            if q.Ok? && s.commitmentAwards[c].reportHash == r then
              r in t.awards && OpenFor(s, r) && !OpenFor(t, r)
            else
              && (r in t.awards <==> r in s.awards) && (r in s.awards ==> t.awards[r] == s.awards[r])
              && (OpenFor(t, r) ==> OpenFor(s, r))
  {
    assert c in s.commitmentAwards ==> AwardLinked(s, c);
  }

  /**
   * If every push award is for a report without an open commitment award,
   * which its caller could check, each report is paid at most once, and
   * exactly when it has an award record.
   */
  lemma {:induction false} PaidOnce(sha: nat -> nat, governance: nat, calls: seq<Call>, r: nat)
    requires GuardedThroughout(sha, Initial(governance), calls)
    ensures var t := Run(sha, Initial(governance), calls);
            && Payments(sha, Initial(governance), calls, r) == (if r in t.awards then 1 else 0)
            && (r in t.awards ==> !OpenFor(t, r))
  {
    if calls != [] {
      var n := |calls| - 1;
      var s := Run(sha, Initial(governance), calls[..n]);
      PaidOnce(sha, governance, calls[..n], r);
      RunConserves(sha, governance, calls[..n]);
      StepReport(sha, s, calls[n], r);
    }
  }

  /** An award record without an open commitment award behind it never changes, and its report is never paid again. */
  lemma {:induction false} AwardImmutable(sha: nat -> nat, s: State, calls: seq<Call>, r: nat, now: u64)
    requires Inv(s) && r in s.awards && From(calls, now)
    requires !OpenFor(s, r) || Expired(s, s.disclosures[r], now)
    ensures var t := Run(sha, s, calls);
            && r in t.awards && t.awards[r] == s.awards[r] && Payments(sha, s, calls, r) == 0
            && (!OpenFor(s, r) ==> !OpenFor(t, r))
  {
    if calls != [] {
      var n := |calls| - 1;
      AwardImmutable(sha, s, calls[..n], r, now);
      RunKeeps(sha, s, calls[..n]);
      var t := Run(sha, s, calls[..n]);
      StepReport(sha, t, calls[n], r);
      if OpenFor(s, r) {
        ExpiredForever(sha, s, calls[..n], s.disclosures[r], now);
        assert AwardLinked(s, s.disclosures[r]);
        ExpiredUnpaid(sha, t, calls[n], s.disclosures[r], r);
      } else {
        AwardedUnpaid(sha, t, calls[n], r);
      }
    }
  }

  lemma ExpiredUnpaid(sha: nat -> nat, s: State, call: Call, c: nat, r: nat)
    requires Linked(s) && r in s.awards && Expired(s, c, call.now)
    requires c in s.commitmentAwards && s.commitmentAwards[c].reportHash == r
    ensures !PaysReport(sha, s, call, r)
  {
    assert forall d :: d in s.commitmentAwards ==> AwardLinked(s, d);
  }

  lemma AwardedUnpaid(sha: nat -> nat, s: State, call: Call, r: nat)
    requires Linked(s) && r in s.awards && !OpenFor(s, r)
    ensures !PaysReport(sha, s, call, r)
  {
    StepReport(sha, s, call, r);
  }

  /**
   * When an awarded report is paid a second time: some later calls do so if
   * and only if it has an open commitment award whose binding has not
   * expired. The award record is then overwritten, although it is documented
   * as immutable.
   */
  lemma PaidAgainExactly(sha: nat -> nat, s: State, r: nat, preimage: nat, now: u64)
    requires Inv(s) && r in s.awards && r in s.disclosures && s.disclosures[r] == sha(preimage)
    ensures (exists calls :: From(calls, now) && Payments(sha, s, calls, r) > 0)
       <==> OpenFor(s, r) && !Expired(s, sha(preimage), now)
  {
    var c := sha(preimage);
    if OpenFor(s, r) && !Expired(s, c, now) {
      assert AwardLinked(s, c);
      var calls := ClaimPlan(sha, s, preimage, now);
      AwardSettledOnce(sha, s, calls, c);
      MovesArePayments(sha, s, calls, c, r);
      assert From(calls, now) && Payments(sha, s, calls, r) > 0;
    } else {
      forall calls | From(calls, now)
        ensures Payments(sha, s, calls, r) == 0
      {
        AwardImmutable(sha, s, calls, r, now);
      }
    }
  }

  lemma {:induction false} MovesArePayments(sha: nat -> nat, s: State, calls: seq<Call>, c: nat, r: nat)
    requires c in s.commitmentAwards && s.commitmentAwards[c].reportHash == r
    ensures AwardMoves(sha, s, calls, c) <= Payments(sha, s, calls, r)
  {
    if calls != [] {
      var n := |calls| - 1;
      MovesArePayments(sha, s, calls[..n], c, r);
      AwardSettledOnce(sha, s, calls[..n], c);
    }
  }

  /** The state after the push award of `PaysTwice`. */
  function PushedWhileOpen(governance: nat, researcher: nat, r: nat, c: nat, now: u64): State {
    Initial(governance).(
      balance := 1, reserved := 1, allowed := {researcher}, disclosures := map[r := c], used := {c},
      commitmentAwards := map[c := CommitmentAward(r, c, 1, now, true)],
      awards := map[r := Award(researcher, 1, r, now)])
  }

  /** Four calls that pay a report by push while its commitment award is open; some more pay it again. */
  lemma PaysTwice(sha: nat -> nat, governance: nat, researcher: nat, r: nat, preimage: nat, now: u64)
    ensures var calls := [Call(Fund(2, true), now),
                          Call(AwardCommitment(governance, r, sha(preimage), 1), now),
                          Call(Screen(researcher, true), now),
                          Call(AwardNow(governance, researcher, 1, r, true), now)];
            && Payments(sha, Initial(governance), calls, r) == 1
            && exists more :: From(more, now) && Payments(sha, Run(sha, Initial(governance), calls), more, r) > 0
  {
    var c := sha(preimage);
    var calls := [Call(Fund(2, true), now),
                  Call(AwardCommitment(governance, r, c, 1), now),
                  Call(Screen(researcher, true), now),
                  Call(AwardNow(governance, researcher, 1, r, true), now)];
    var s4 := PushedWhileOpen(governance, researcher, r, c, now);
    FourCalls(sha, governance, researcher, r, c, now);
    RunConserves(sha, governance, calls);
    PaidAgainExactly(sha, s4, r, preimage, now);
  }

  lemma FourCalls(sha: nat -> nat, governance: nat, researcher: nat, r: nat, c: nat, now: u64)
    ensures var calls := [Call(Fund(2, true), now),
                          Call(AwardCommitment(governance, r, c, 1), now),
                          Call(Screen(researcher, true), now),
                          Call(AwardNow(governance, researcher, 1, r, true), now)];
            && Run(sha, Initial(governance), calls) == PushedWhileOpen(governance, researcher, r, c, now)
            && Payments(sha, Initial(governance), calls, r) == 1
  {
    var start := Initial(governance);
    var c0, c1 := Call(Fund(2, true), now), Call(AwardCommitment(governance, r, c, 1), now);
    var c2, c3 := Call(Screen(researcher, true), now), Call(AwardNow(governance, researcher, 1, r, true), now);
    var s1 := start.(balance := 2);
    Snoc(sha, start, [], c0, s1, r, 0);
    var s2 := s1.(disclosures := map[r := c], used := {c}, reserved := 1,
                  commitmentAwards := map[c := CommitmentAward(r, c, 1, now, true)]);
    assert [] + [c0] == [c0];
    Snoc(sha, start, [c0], c1, s2, r, 0);
    var s3 := s2.(allowed := {researcher});
    assert [c0] + [c1] == [c0, c1];
    Snoc(sha, start, [c0, c1], c2, s3, r, 0);
    assert [c0, c1] + [c2] == [c0, c1, c2];
    Snoc(sha, start, [c0, c1, c2], c3, PushedWhileOpen(governance, researcher, r, c, now), r, 1);
    assert [c0, c1, c2] + [c3] == [c0, c1, c2, c3];
  }

  /** One more call at the end of a run. */
  lemma Snoc(sha: nat -> nat, s: State, calls: seq<Call>, call: Call, t: State, r: nat, paid: nat)
    requires Step(sha, Run(sha, s, calls), call).0 == t
    requires paid == if PaysReport(sha, Run(sha, s, calls), call, r) then 1 else 0
    ensures Run(sha, s, calls + [call]) == t
    ensures Payments(sha, s, calls + [call], r) == Payments(sha, s, calls, r) + paid
  {
    assert (calls + [call])[..|calls|] == calls;
  }
}
