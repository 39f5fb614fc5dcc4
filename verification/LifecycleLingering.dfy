/** The one way a settled grant is left unclosed, and that it then stays so. */
module LifecycleLingering {
  import opened Results
  import opened GrantTerms
  import opened Lifecycle
  import opened LifecycleInvariant
  import opened LifecycleRuns
  import Review

  /** Nothing is left to claim or refund, everything is paid, and yet the grant is not closed. */
  predicate Lingers(g: Grant) {
    AcceptsRequests(g.status) && Closable(g)
  }

  predicate AllSettled(g: Grant) {
    g.claimable == 0 && g.pendingRefund == 0 && AllPaid(g.milestones)
  }

  /** The call rejects or withdraws the open request of a grant that is already settled. */
  predicate ClosesSettled(s: State, op: Op, id: nat) {
    && op.CloseRequest? && Step(s, op).1.Ok?
    && s.requests[op.request].grantId == id && id in s.grants && AllSettled(s.grants[id])
  }

  /**
   * A settled grant is closed by the call that settles it, with exactly one
   * exception: if a request was open at that moment, closing the request
   * puts the grant back where it was, and it is never closed.
   */
  lemma LingersExactly(s: State, op: Op, id: nat)
    requires Inv(s) && id in s.grants && !Lingers(s.grants[id])
    ensures var t := Step(s, op).0;
            id in t.grants && (Lingers(t.grants[id]) <==> ClosesSettled(s, op, id))
  {
    if Target(s, op) != Some(id) {
      Untouched(s, op, id);
    } else {
      match op {
        case CloseRequest(caller, r) => CloseLingers(s, caller, r, id);
        case Execute(caller, r) => ExecuteLingers(s, caller, r, id);
        case _ => SettlesOrNot(s, op, id);
      }
    }
  }

  lemma CloseLingers(s: State, caller: nat, r: nat, id: nat)
    requires Inv(s) && id in s.grants && !Lingers(s.grants[id]) && r in s.requests && s.requests[r].grantId == id
    ensures var (t, ok) := DoClose(s, caller, r);
            id in t.grants && (Lingers(t.grants[id]) <==> ok.Ok? && AllSettled(s.grants[id]))
  {
    if FindOpen(s, r).Ok? {
      OpenGrant(s, r);
    }
  }

  lemma ExecuteLingers(s: State, caller: nat, r: nat, id: nat)
    requires id in s.grants && !Lingers(s.grants[id]) && r in s.requests && s.requests[r].grantId == id
    ensures var (t, ok) := DoExecute(s, caller, r);
            id in t.grants && !Lingers(t.grants[id])
  {
    if DoExecute(s, caller, r).1.Ok? {
      ExecuteSuccess(s, caller, r);
    }
  }

  lemma SettlesOrNot(s: State, op: Op, id: nat)
    requires Inv(s) && id in s.grants && !Lingers(s.grants[id])
    requires op.Confirm? || op.Claim? || op.Refund? || op.RequestChange?
    requires Target(s, op) == Some(id)
    ensures var t := Step(s, op).0; id in t.grants && !Lingers(t.grants[id])
  {
    if Step(s, op).1.Ok? && op.Confirm? {
      ConfirmedUnpaid(s.grants[id], op.index);
    }
  }

  lemma ConfirmedUnpaid(g: Grant, index: nat)
    requires index < |g.milestones| && ClaimedOnlyConfirmed(g.milestones) && !g.milestones[index].confirmed
    ensures !AllPaid(Confirmed(g, index).milestones)
  {
    assert !Confirmed(g, index).milestones[index].claimed;
  }

  lemma LingerStep(s: State, op: Op, id: nat)
    requires Inv(s) && id in s.grants && Lingers(s.grants[id])
    ensures var t := Step(s, op).0; id in t.grants && t.grants[id] == s.grants[id]
  {
    var g := s.grants[id];
    if Target(s, op) != Some(id) {
      Untouched(s, op, id);
    } else if op.CloseRequest? || op.Execute? {
      if FindOpen(s, op.request).Ok? {
        OpenGrant(s, op.request);
      }
    } else if op.RequestChange? {
      NothingPending(g);
    }
  }

  /** With every milestone paid, no change can be asked for. */
  lemma NothingPending(g: Grant)
    requires InOrder(g.milestones) && AllPaid(g.milestones)
    ensures forall change :: Refusal(g, change).Some?
  {
    PendingIsTail(g.milestones);
    ConfirmedFront(g.milestones);
  }

  /** No call ever closes, or changes, a grant that lingers. */
  lemma {:induction false} LingersForever(s: State, ops: seq<Op>, id: nat)
    requires Inv(s) && id in s.grants && Lingers(s.grants[id])
    ensures var t := Run(s, ops); Inv(t) && id in t.grants && t.grants[id] == s.grants[id]
  {
    if ops != [] {
      var n := |ops| - 1;
      LingersForever(s, ops[..n], id);
      StepKeeps(Run(s, ops[..n]), ops[n]);
      StepGrant(Run(s, ops[..n]), ops[n], id);
      LingerStep(Run(s, ops[..n]), ops[n], id);
    }
  }

  /** A grant of one unit, with one milestone. */
  function Small(grantee: nat, confirmed: bool, claimed: bool, claimable: int, status: Status, r: Option<nat>): Grant {
    Grant(grantee, 1, [Milestone(1, 0, confirmed, claimed)], claimable, status, r, 0, 0, 0)
  }

  lemma SmallRequest(grantee: nat)
    ensures Refusal(Small(grantee, false, false, 0, Funded, None), Amendment([Term(1, 0)])).None?
  {
    var ms := Small(grantee, false, false, 0, Funded, None).milestones;
    var terms := [Term(1, 0)];
    assert ms[..0] == [];
    assert Pending(ms) == Pending(ms[..0]) + [ms[0]];
    assert Part(ms, Unconfirmed) == Part(ms[..0], Unconfirmed) + 1;
    assert ScanTerms(0, terms) == ScanTerms(1, terms[1..]);
    assert Dates(terms) == [0];
    DatesOrderedMeaning(LastConfirmedDue(ms), Dates(terms));
  }

  lemma SmallPaid(grantee: nat)
    ensures ClaimAll([Milestone(1, 0, true, false)]) == [Milestone(1, 0, true, true)]
    ensures Claimed(Small(grantee, true, false, 1, AmendmentRequested, Some(0)))
         == Small(grantee, true, true, 0, AmendmentRequested, Some(0))
  {
  }

  /** A run that ends so: the only milestone is confirmed and paid while an amendment is pending, then withdrawn. */
  lemma SettledButFunded(governance: nat, grantee: nat)
    ensures var ops := [Create(governance, grantee, 1, [Term(1, 0)]),
                        RequestChange(grantee, 0, Amendment([Term(1, 0)]), 0),
                        Confirm(governance, 0, 0),
                        Claim(grantee, 0),
                        CloseRequest(grantee, 0)];
            var t := Run(Initial(governance), ops);
            0 in t.grants && Lingers(t.grants[0])
  {
    var start := Initial(governance);
    var o0 := Create(governance, grantee, 1, [Term(1, 0)]);
    var o1 := RequestChange(grantee, 0, Amendment([Term(1, 0)]), 0);
    var o2, o3, o4 := Confirm(governance, 0, 0), Claim(grantee, 0), CloseRequest(grantee, 0);
    var s2 := Filed1(governance, grantee);
    FirstTwo(governance, grantee);
    LastThree(s2, grantee);
    ThreeMore(start, [o0, o1], governance, grantee, [o0, o1, o2, o3, o4]);
  }

  /** The state with the request of `SettledButFunded` filed. */
  function Filed1(governance: nat, grantee: nat): State {
    File(Created1(governance, grantee), 0,
         Request(0, Amendment([Term(1, 0)]), grantee, 0, [Term(1, 0)], 0, None, Funded, true))
  }

  lemma FirstTwo(governance: nat, grantee: nat)
    ensures Run(Initial(governance), [Create(governance, grantee, 1, [Term(1, 0)]),
                                      RequestChange(grantee, 0, Amendment([Term(1, 0)]), 0)])
         == Filed1(governance, grantee)
  {
    var start := Initial(governance);
    var o0 := Create(governance, grantee, 1, [Term(1, 0)]);
    var o1 := RequestChange(grantee, 0, Amendment([Term(1, 0)]), 0);
    Create1(governance, grantee);
    Snoc(start, [], o0, [o0], Created1(governance, grantee));
    SmallRequest(grantee);
    assert Schedule([Milestone(1, 0, false, false)]) == [Term(1, 0)];
    Snoc(start, [o0], o1, [o0, o1], Filed1(governance, grantee));
  }

  function Created1(governance: nat, grantee: nat): State {
    Initial(governance).(grants := map[0 := Small(grantee, false, false, 0, Funded, None)], nextGrantId := 1)
  }

  /** Confirmed, claimed and withdrawn, the grant is funded again. */
  lemma LastThree(s: State, grantee: nat)
    requires 0 in s.grants && s.grants[0] == Small(grantee, false, false, 0, AmendmentRequested, Some(0))
    requires s.board.quorum == 0 && FindOpen(s, 0).Ok?
    requires s.requests[0].grantId == 0 && s.requests[0].requester == grantee
    requires s.requests[0].previousStatus == Funded
    ensures var t := DoConfirm(s, s.governance, 0, 0).0;
            var u := DoClaim(t, grantee, 0).0;
            var v := DoClose(u, grantee, 0).0;
            0 in v.grants && Lingers(v.grants[0])
  {
    Confirm1(s, grantee);
    SmallPaid(grantee);
  }

  lemma Create1(governance: nat, grantee: nat)
    ensures DoCreate(Initial(governance), governance, grantee, 1, [Term(1, 0)]).0
         == Created1(governance, grantee)
  {
    var terms := [Term(1, 0)];
    assert ScanTerms(0, terms) == ScanTerms(1, terms[1..]);
    assert Fresh(terms) == [Milestone(1, 0, false, false)];
  }

  lemma Confirm1(s: State, grantee: nat)
    requires 0 in s.grants && s.grants[0] == Small(grantee, false, false, 0, AmendmentRequested, Some(0))
    requires s.board.quorum == 0
    ensures DoConfirm(s, s.governance, 0, 0).0 == Put(s, 0, Small(grantee, true, false, 1, AmendmentRequested, Some(0)))
  {
    var ms := s.grants[0].milestones;
    assert ms[0 := ms[0].(confirmed := true)] == [Milestone(1, 0, true, false)];
  }

  lemma Snoc(s: State, ops: seq<Op>, op: Op, all: seq<Op>, t: State)
    requires all == ops + [op] && Step(Run(s, ops), op).0 == t
    ensures Run(s, all) == t
  {
    assert all[..|all| - 1] == ops;
  }

  lemma ThreeMore(s: State, ops: seq<Op>, governance: nat, grantee: nat, all: seq<Op>)
    requires all == ops + [Confirm(governance, 0, 0)] + [Claim(grantee, 0)] + [CloseRequest(grantee, 0)]
    ensures var t := DoConfirm(Run(s, ops), governance, 0, 0).0;
            Run(s, all) == DoClose(DoClaim(t, grantee, 0).0, grantee, 0).0
  {
    var a, b, c := Confirm(governance, 0, 0), Claim(grantee, 0), CloseRequest(grantee, 0);
    Snoc(s, ops, a, ops + [a], Step(Run(s, ops), a).0);
    Snoc(s, ops + [a], b, ops + [a] + [b], Step(Run(s, ops + [a]), b).0);
    Snoc(s, ops + [a] + [b], c, all, Step(Run(s, ops + [a] + [b]), c).0);
  }
}
