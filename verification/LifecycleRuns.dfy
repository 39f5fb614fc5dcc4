/** Grants and requests over whole runs of the lifecycle. */
module LifecycleRuns {
  import opened Results
  import opened GrantTerms
  import opened GrantChanges
  import opened Lifecycle
  import opened LifecycleInvariant
  import Review

  // ---------------------------------------------------------------------
  // Grants over whole runs
  // ---------------------------------------------------------------------

  /** What one call pays the recipient of a grant. */
  function PaidBy(s: State, op: Op, id: nat): int {
    if op.Claim? && op.id == id && Step(s, op).1.Ok? then Step(s, op).1.value else 0
  }

  /** What one call returns to the treasury for a grant. */
  function RefundedBy(s: State, op: Op, id: nat): int {
    if op.Refund? && op.id == id && Step(s, op).1.Ok? then Step(s, op).1.value else 0
  }

  function PaidIn(s: State, ops: seq<Op>, id: nat): int {
    if ops == [] then 0
    else
      var n := |ops| - 1;
      PaidIn(s, ops[..n], id) + PaidBy(Run(s, ops[..n]), ops[n], id)
  }

  function RefundedIn(s: State, ops: seq<Op>, id: nat): int {
    if ops == [] then 0
    else
      var n := |ops| - 1;
      RefundedIn(s, ops[..n], id) + RefundedBy(Run(s, ops[..n]), ops[n], id)
  }

  lemma Unchanged(g: Grant)
    requires GrantOk(g)
    ensures GoodStep(g, g, 0, 0)
  {
    ConfirmedFront(g.milestones);
    SameFront(g.milestones, g.milestones);
  }

  /** The existing grant a call may change, if any. */
  function Target(s: State, op: Op): Option<nat> {
    match op
    case Confirm(_, id, _) => Some(id)
    case Claim(_, id) => Some(id)
    case RequestChange(_, id, _, _) => Some(id)
    case Refund(_, id, _) => Some(id)
    case CloseRequest(_, r) => if r in s.requests then Some(s.requests[r].grantId) else None
    case Execute(_, r) => if r in s.requests then Some(s.requests[r].grantId) else None
    case _ => None
  }

  lemma Untouched(s: State, op: Op, id: nat)
    requires id in s.grants && id < s.nextGrantId && Target(s, op) != Some(id)
    ensures var t := Step(s, op).0;
            && id in t.grants && t.grants[id] == s.grants[id]
            && PaidBy(s, op, id) == 0 && RefundedBy(s, op, id) == 0
  {
    match op {
      case Create(_, _, _, _) =>
      case Confirm(_, _, _) =>
      case Claim(_, _) =>
      case RequestChange(_, _, _, _) =>
      case Approve(_, _) =>
      case CloseRequest(_, _) =>
      case Execute(_, _) =>
      case Refund(_, _, _) =>
      case OnBoard(_) =>
    }
  }

  lemma ConfirmMoves(s: State, caller: nat, id: nat, index: nat)
    requires GrantsOk(s) && id in s.grants
    ensures var t := DoConfirm(s, caller, id, index).0; id in t.grants && GoodStep(s.grants[id], t.grants[id], 0, 0)
  {
    Unchanged(s.grants[id]);
    if DoConfirm(s, caller, id, index).1.Ok? {
      ConfirmedGood(s.grants[id], index);
    }
  }

  lemma ClaimMoves(s: State, caller: nat, id: nat)
    requires GrantsOk(s) && id in s.grants
    ensures var (t, r) := DoClaim(s, caller, id);
            id in t.grants && GoodStep(s.grants[id], t.grants[id], if r.Ok? then r.value else 0, 0)
  {
    Unchanged(s.grants[id]);
    if DoClaim(s, caller, id).1.Ok? {
      ClaimedGood(s.grants[id]);
    }
  }

  lemma RefundMoves(s: State, caller: nat, id: nat, accepted: bool)
    requires GrantsOk(s) && id in s.grants
    ensures var (t, r) := DoRefund(s, caller, id, accepted);
            id in t.grants && GoodStep(s.grants[id], t.grants[id], 0, if r.Ok? then r.value else 0)
  {
    Unchanged(s.grants[id]);
    if DoRefund(s, caller, id, accepted).1.Ok? {
      RefundedGood(s.grants[id]);
    }
  }

  lemma RequestMoves(s: State, caller: nat, id: nat, change: Change, reason: nat)
    requires GrantsOk(s) && id in s.grants
    ensures var t := DoRequest(s, caller, id, change, reason).0;
            id in t.grants && GoodStep(s.grants[id], t.grants[id], 0, 0)
  {
    Unchanged(s.grants[id]);
    if DoRequest(s, caller, id, change, reason).1.Ok? {
      RestatedGood(s.grants[id], RequestedStatus(change), Some(s.nextRequestId));
    }
  }

  lemma CloseMoves(s: State, caller: nat, r: nat, id: nat)
    requires Inv(s) && id in s.grants && r in s.requests && s.requests[r].grantId == id
    ensures var t := DoClose(s, caller, r).0; id in t.grants && GoodStep(s.grants[id], t.grants[id], 0, 0)
  {
    Unchanged(s.grants[id]);
    if DoClose(s, caller, r).1.Ok? {
      OpenGrant(s, r);
      RestatedGood(s.grants[id], s.requests[r].previousStatus, None);
    }
  }

  lemma ExecuteMoves(s: State, caller: nat, r: nat, id: nat)
    requires Inv(s) && id in s.grants && r in s.requests && s.requests[r].grantId == id
    ensures var t := DoExecute(s, caller, r).0; id in t.grants && GoodStep(s.grants[id], t.grants[id], 0, 0)
  {
    Unchanged(s.grants[id]);
    if DoExecute(s, caller, r).1.Ok? {
      OpenGrant(s, r);
      ExecuteSuccess(s, caller, r);
      ExecutedGood(s.grants[id], s.requests[r].change);
    }
  }

  lemma StepGrant(s: State, op: Op, id: nat)
    requires Inv(s) && id in s.grants
    ensures var t := Step(s, op).0;
            id in t.grants && GoodStep(s.grants[id], t.grants[id], PaidBy(s, op, id), RefundedBy(s, op, id))
  {
    if Target(s, op) != Some(id) {
      Untouched(s, op, id);
      Unchanged(s.grants[id]);
    } else if op.Confirm? || op.Claim? || op.Refund? {
      StepFunds(s, op, id);
    } else {
      StepTerms(s, op, id);
    }
  }

  lemma StepFunds(s: State, op: Op, id: nat)
    requires Inv(s) && id in s.grants && Target(s, op) == Some(id) && (op.Confirm? || op.Claim? || op.Refund?)
    ensures var t := Step(s, op).0;
            id in t.grants && GoodStep(s.grants[id], t.grants[id], PaidBy(s, op, id), RefundedBy(s, op, id))
  {
    match op {
      case Confirm(caller, _, index) => ConfirmMoves(s, caller, id, index);
      case Claim(caller, _) => ClaimMoves(s, caller, id);
      case Refund(caller, _, accepted) => RefundMoves(s, caller, id, accepted);
    }
  }

  lemma StepTerms(s: State, op: Op, id: nat)
    requires Inv(s) && id in s.grants && Target(s, op) == Some(id) && !op.Confirm? && !op.Claim? && !op.Refund?
    ensures var t := Step(s, op).0;
            id in t.grants && GoodStep(s.grants[id], t.grants[id], PaidBy(s, op, id), RefundedBy(s, op, id))
  {
    match op {
      case RequestChange(caller, _, change, reason) => RequestMoves(s, caller, id, change, reason);
      case CloseRequest(caller, r) => CloseMoves(s, caller, r, id);
      case Execute(caller, r) => ExecuteMoves(s, caller, r, id);
    }
  }

  lemma EvolvesOn(f: Grant, g: Grant, h: Grant)
    requires Evolves(f, g) && Evolves(g, h)
    ensures Evolves(f, h)
  {
  }

  /**
   * Through any calls, requests and refusals of the treasury included: the
   * award stays, the milestones once confirmed stay in front untouched,
   * ordered deadlines stay ordered, a closed grant stays closed, and what is
   * paid and refunded is exactly what the calls moved.
   */
  lemma {:induction false} RunGrant(s: State, ops: seq<Op>, id: nat)
    requires Inv(s) && id in s.grants
    ensures var t := Run(s, ops);
            && Inv(t) && id in t.grants
            && GoodStep(s.grants[id], t.grants[id], PaidIn(s, ops, id), RefundedIn(s, ops, id))
  {
    if ops == [] {
      Unchanged(s.grants[id]);
    } else {
      var n := |ops| - 1;
      RunGrant(s, ops[..n], id);
      var t := Run(s, ops[..n]);
      StepKeeps(t, ops[n]);
      StepGrant(t, ops[n], id);
      EvolvesOn(s.grants[id], t.grants[id], Step(t, ops[n]).0.grants[id]);
    }
  }

  /** A closed grant stays exactly as it is. */
  lemma ClosedIsFinal(s: State, ops: seq<Op>, id: nat)
    requires Inv(s) && id in s.grants && s.grants[id].status == Closed
    ensures var t := Run(s, ops); id in t.grants && t.grants[id] == s.grants[id]
  {
    RunGrant(s, ops, id);
  }

  /** A call can only bring one new grant into being, with nothing paid or refunded. */
  lemma NewGrant(s: State, op: Op, id: nat)
    requires Inv(s) && id !in s.grants
    ensures var t := Step(s, op).0;
            && PaidBy(s, op, id) == 0 && RefundedBy(s, op, id) == 0
            && (id in t.grants ==> Part(t.grants[id].milestones, Paid) == 0 && t.grants[id].refunded == 0)
  {
    if op.Create? {
      PartUniform(Fresh(op.terms), Paid);
    } else {
      NoneCreated(s, op, id);
    }
  }

  lemma NoneCreated(s: State, op: Op, id: nat)
    requires Inv(s) && id !in s.grants && !op.Create?
    ensures id !in Step(s, op).0.grants && PaidBy(s, op, id) == 0 && RefundedBy(s, op, id) == 0
  {
    if op.CloseRequest? || op.Execute? {
      if FindOpen(s, op.request).Ok? {
        OpenGrant(s, op.request);
      }
      FinishCreatesNone(s, op, id);
    }
  }

  lemma FinishCreatesNone(s: State, op: Op, id: nat)
    requires id !in s.grants && (op.CloseRequest? || op.Execute?)
    requires FindOpen(s, op.request).Ok? ==> s.requests[op.request].grantId in s.grants
    ensures id !in Step(s, op).0.grants
  {
  }

  /** Over every run from an empty contract: a grant's award was paid, was refunded, or is still held. */
  lemma {:induction false} RunConserves(governance: nat, ops: seq<Op>, id: nat)
    ensures var t := Run(Initial(governance), ops);
            var paid := PaidIn(Initial(governance), ops, id);
            var refunded := RefundedIn(Initial(governance), ops, id);
            if id in t.grants then
              var g := t.grants[id];
              && paid == Part(g.milestones, Paid) && refunded == g.refunded
              && g.total == paid + refunded + Escrowed(g)
              && Escrowed(g) == Part(g.milestones, Unconfirmed) + g.claimable + g.pendingRefund
              && 0 <= g.claimable && 0 <= g.pendingRefund && 0 <= refunded && 0 <= paid
            else
              paid == 0 && refunded == 0
  {
    var s := Initial(governance);
    RunKeeps(governance, ops);
    if ops != [] {
      var n := |ops| - 1;
      RunConserves(governance, ops[..n], id);
      RunKeeps(governance, ops[..n]);
      var t := Run(s, ops[..n]);
      if id in t.grants {
        StepGrant(t, ops[n], id);
      } else {
        NewGrant(t, ops[n], id);
      }
    }
    var t := Run(s, ops);
    if id in t.grants {
      AmountsFit(t.grants[id]);
      PartsAddUp(t.grants[id].milestones);
    }
  }

  // ---------------------------------------------------------------------
  // Requests over whole runs
  // ---------------------------------------------------------------------

  /** A grant names an open request exactly in the requested states, and that request is open and its own. */
  lemma RequestedExactly(governance: nat, ops: seq<Op>, id: nat)
    requires id in Run(Initial(governance), ops).grants
    ensures var t := Run(Initial(governance), ops);
            var g := t.grants[id];
            && (IsRequested(g.status) <==> g.openRequest.Some?)
            && (IsRequested(g.status) <==> exists r :: FindOpen(t, r).Ok? && t.requests[r].grantId == id)
            && (g.openRequest.Some? ==>
                  && FindOpen(t, g.openRequest.value).Ok? && t.requests[g.openRequest.value].grantId == id
                  && match t.requests[g.openRequest.value].change
                     case Amendment(_) => g.status == AmendmentRequested
                     case Extension(_) => g.status == ExtensionRequested
                     case Termination(_) => g.status == TerminationRequested)
  {
    RunKeeps(governance, ops);
    var t := Run(Initial(governance), ops);
    if r :| FindOpen(t, r).Ok? && t.requests[r].grantId == id {
      assert RequestOk(t, r);
    }
    assert LinkOk(t, id);
    if t.grants[id].openRequest.Some? {
      assert RequestOk(t, t.grants[id].openRequest.value);
    }
  }

  /** Two open requests of one grant are the same request, and the grant says so. */
  lemma OneOpenRequest(governance: nat, ops: seq<Op>, q: nat, r: nat)
    requires var t := Run(Initial(governance), ops);
             FindOpen(t, q).Ok? && FindOpen(t, r).Ok? && t.requests[q].grantId == t.requests[r].grantId
    ensures var t := Run(Initial(governance), ops);
            && q == r && t.requests[r].grantId in t.grants
            && t.grants[t.requests[r].grantId].openRequest == Some(r)
            && IsRequested(t.grants[t.requests[r].grantId].status)
  {
    RunKeeps(governance, ops);
    var t := Run(Initial(governance), ops);
    assert RequestOk(t, q) && RequestOk(t, r);
  }

  /** A request never changes what it asks for; it is approved at most once and closed at most once. */
  predicate RequestEvolves(a: Request, b: Request) {
    && b == a.(open := b.open, approvedBy := b.approvedBy)
    && (b.open ==> a.open) && (a.approvedBy.Some? ==> b.approvedBy == a.approvedBy)
    && (!a.open ==> b == a)
  }

  lemma StepRequest(s: State, op: Op, r: nat)
    requires Inv(s) && r in s.requests
    ensures var t := Step(s, op).0;
            && r in t.requests && RequestEvolves(s.requests[r], t.requests[r])
            && (t.requests[r].approvedBy != s.requests[r].approvedBy ==>
                  op.Approve? && op.request == r && t.requests[r].approvedBy == Some(op.caller)
                  && ApprovalRefusal(s, op.caller, s.requests[r]).None?)
  {
    NextRequestFree(s);
    RequestAfter(s, op, r);
  }

  lemma RequestAfter(s: State, op: Op, r: nat)
    requires r in s.requests && s.nextRequestId !in s.requests
    ensures var t := Step(s, op).0;
            && r in t.requests
            && t.requests[r] == (if Step(s, op).1.Err? then s.requests[r]
                                 else if op.Approve? && op.request == r then s.requests[r].(approvedBy := Some(op.caller))
                                 else if (op.CloseRequest? || op.Execute?) && op.request == r then
                                   s.requests[r].(open := false)
                                 else s.requests[r])
  {
    match op {
      case Create(_, _, _, _) =>
      case Confirm(_, _, _) =>
      case Claim(_, _) =>
      case RequestChange(_, _, _, _) =>
      case Approve(_, _) =>
      case CloseRequest(_, _) =>
      case Execute(_, _) =>
      case Refund(_, _, _) =>
      case OnBoard(_) =>
    }
  }

  lemma {:induction false} RunRequest(s: State, ops: seq<Op>, r: nat)
    requires Inv(s) && r in s.requests
    ensures var t := Run(s, ops);
            Inv(t) && r in t.requests && RequestEvolves(s.requests[r], t.requests[r])
  {
    if ops != [] {
      var n := |ops| - 1;
      RunRequest(s, ops[..n], r);
      StepKeeps(Run(s, ops[..n]), ops[n]);
      StepRequest(Run(s, ops[..n]), ops[n], r);
    }
  }

  /** The call approves the open request `r`, and its caller is allowed to at that moment. */
  predicate ApprovesNow(s: State, op: Op, r: nat, approver: nat) {
    && op == Approve(approver, r) && r in s.requests && s.requests[r].open
    && (approver == s.governance
        || (&& !s.requests[r].change.Termination? && approver != s.requests[r].requester
            && Review.Eligible(s.board, Recipients(s.grants), Review.Key(s.requests[r].grantId, approver))))
  }

  /** Some call of the run did. */
  ghost predicate WasApproved(s: State, ops: seq<Op>, r: nat, approver: nat) {
    exists k :: 0 <= k < |ops| && ApprovesNow(Run(s, ops[..k]), ops[k], r, approver)
  }

  lemma ApprovalStep(s: State, op: Op, r: nat)
    requires r in s.requests && s.requests[r].approvedBy == None && s.nextRequestId !in s.requests
    requires r in Step(s, op).0.requests && Step(s, op).0.requests[r].approvedBy.Some?
    ensures ApprovesNow(s, op, r, Step(s, op).0.requests[r].approvedBy.value)
  {
    RequestAfter(s, op, r);
    ApproveFacts(s, op.caller, r);
    NoRefusal(s, op.caller, s.requests[r]);
  }

  lemma ApproveFacts(s: State, caller: nat, r: nat)
    requires DoApprove(s, caller, r).1.Ok?
    ensures r in s.requests && s.requests[r].open && ApprovalRefusal(s, caller, s.requests[r]).None?
  {
  }

  lemma NoRefusal(s: State, caller: nat, q: Request)
    requires ApprovalRefusal(s, caller, q).None?
    ensures caller == s.governance
            || (&& !q.change.Termination? && caller != q.requester
                && Review.Eligible(s.board, Recipients(s.grants), Review.Key(q.grantId, caller)))
  {
    Review.EligibleExactly(s.board, Recipients(s.grants), Review.Key(q.grantId, caller));
  }

  /**
   * Whoever stands as approver of a request was governance when approving,
   * or an assigned, active, unconflicted reviewer who is neither the grantee
   * nor the requester, and the request was no termination.
   */
  lemma {:induction false} ApproverWasAllowed(s: State, ops: seq<Op>, r: nat)
    requires Inv(s) && r in s.requests && s.requests[r].approvedBy == None
    ensures var t := Run(s, ops);
            && r in t.requests
            && (t.requests[r].approvedBy.Some? ==> WasApproved(s, ops, r, t.requests[r].approvedBy.value))
  {
    if ops != [] {
      var n := |ops| - 1;
      ApproverWasAllowed(s, ops[..n], r);
      RunRequest(s, ops[..n], r);
      var t := Run(s, ops[..n]);
      StepRequest(t, ops[n], r);
      if t.requests[r].approvedBy.Some? {
        StaysApproved(s, ops, r, t.requests[r].approvedBy.value);
      } else if Run(s, ops).requests[r].approvedBy.Some? {
        NextRequestFree(t);
        ApprovalStep(t, ops[n], r);
      }
    }
  }

  lemma StaysApproved(s: State, ops: seq<Op>, r: nat, approver: nat)
    requires ops != [] && WasApproved(s, ops[..|ops| - 1], r, approver)
    ensures WasApproved(s, ops, r, approver)
  {
    var n := |ops| - 1;
    var k :| 0 <= k < n && ApprovesNow(Run(s, ops[..n][..k]), ops[..n][k], r, approver);
    assert ops[..n][..k] == ops[..k];
  }

  /**
   * Going from `t` to `u` executes request `r` as `q` says: on the schedule
   * and the confirmed count it was filed against, with the effect its change
   * was filed for on every milestone, and with one more record of exactly that.
   */
  ghost predicate CarriesOut(t: State, u: State, r: nat, q: Request) {
    && q.grantId in t.grants && q.grantId in u.grants && q.grantId in u.history && u.history[q.grantId] != []
    && var g, h := t.grants[q.grantId], u.grants[q.grantId];
    && var record := u.history[q.grantId][|u.history[q.grantId]| - 1];
    && u.history[q.grantId] == (if q.grantId in t.history then t.history[q.grantId] else []) + [record]
    && Lists(q.oldSchedule, g.milestones) && ConfirmedCount(g.milestones) == q.confirmedAtRequest
    && Proper(g, q.change) && Changes(g, h, q.change)
    && record.requestId == r && record.change == q.change && record.requester == q.requester
    && record.reason == q.reason && record.oldSchedule == q.oldSchedule
    && r in t.requests && t.requests[r].approvedBy == Some(record.approver)
    && Lists(record.newSchedule, h.milestones)
    && record.refund == h.pendingRefund - g.pendingRefund >= 0
    && r in u.requests && !u.requests[r].open
  }

  /** Amount and deadline of each milestone, in order. */
  predicate Lists(terms: seq<Term>, ms: seq<Milestone>) {
    |terms| == |ms| && forall i :: 0 <= i < |ms| ==> terms[i].amount == ms[i].amount && terms[i].due == ms[i].due
  }

  /** The request a filing puts on record. */
  function AsFiled(g: Grant, caller: nat, id: nat, change: Change, reason: nat): Request {
    Request(id, change, caller, reason, Schedule(g.milestones), ConfirmedCount(g.milestones), None, g.status, true)
  }

  /**
   * A change that is executed, any number of calls after it was filed, is the
   * one that was filed, acts on precisely the schedule and the confirmed
   * count it was filed against, and is put on record that way.
   */
  lemma ExecutedAsFiled(s: State, caller: nat, id: nat, change: Change, reason: nat, between: seq<Op>, executor: nat)
    requires Inv(s) && DoRequest(s, caller, id, change, reason).1.Ok?
    requires DoExecute(Run(DoRequest(s, caller, id, change, reason).0, between), executor, s.nextRequestId).1.Ok?
    ensures var t := Run(DoRequest(s, caller, id, change, reason).0, between);
            id in s.grants
            && CarriesOut(t, DoExecute(t, executor, s.nextRequestId).0, s.nextRequestId,
                          AsFiled(s.grants[id], caller, id, change, reason))
  {
    var filed := DoRequest(s, caller, id, change, reason).0;
    RequestKeeps(s, caller, id, change, reason);
    FilesRequest(s, caller, id, change, reason);
    ExecutedAsStored(filed, s.nextRequestId, between, executor);
  }

  lemma FilesRequest(s: State, caller: nat, id: nat, change: Change, reason: nat)
    requires DoRequest(s, caller, id, change, reason).1.Ok?
    ensures id in s.grants && DoRequest(s, caller, id, change, reason).1.value == s.nextRequestId
    ensures var t := DoRequest(s, caller, id, change, reason).0;
            && s.nextRequestId in t.requests
            && t.requests[s.nextRequestId] == AsFiled(s.grants[id], caller, id, change, reason)
  {
  }

  /** The same of a request that is on file already. */
  lemma ExecutedAsStored(s: State, r: nat, between: seq<Op>, executor: nat)
    requires Inv(s) && r in s.requests && DoExecute(Run(s, between), executor, r).1.Ok?
    ensures CarriesOut(Run(s, between), DoExecute(Run(s, between), executor, r).0, r, s.requests[r])
  {
    RunRequest(s, between, r);
    ExecutesOwnRequest(Run(s, between), executor, r);
    SameTerms(Run(s, between), DoExecute(Run(s, between), executor, r).0, r, Run(s, between).requests[r], s.requests[r]);
  }

  lemma SameTerms(t: State, u: State, r: nat, p: Request, q: Request)
    requires CarriesOut(t, u, r, p) && p == q.(open := p.open, approvedBy := p.approvedBy)
    ensures CarriesOut(t, u, r, q)
  {
  }

  lemma ExecutesOwnRequest(s: State, executor: nat, r: nat)
    requires GrantsOk(s) && DoExecute(s, executor, r).1.Ok?
    ensures r in s.requests && CarriesOut(s, DoExecute(s, executor, r).0, r, s.requests[r])
  {
    ExecuteSuccess(s, executor, r);
    var g, change := s.grants[s.requests[r].grantId], s.requests[r].change;
    ExecutedKeeps(g, change);
    RefusedExactly(g, change);
    ExecutedChanges(g, change);
    ConcludeCarriesOut(s, r, Executed(g, change).0, Executed(g, change).1);
  }

  lemma ConcludeCarriesOut(s: State, r: nat, h: Grant, refund: int)
    requires r in s.requests && s.requests[r].approvedBy.Some? && s.requests[r].grantId in s.grants
    requires var q, g := s.requests[r], s.grants[s.requests[r].grantId];
             && !IsStale(g, q) && Proper(g, q.change) && Changes(g, CloseIfSettled(h), q.change)
             && refund == h.pendingRefund - g.pendingRefund >= 0
    ensures CarriesOut(s, Conclude(s, r, s.requests[r], h, refund), r, s.requests[r])
  {
  }

  /** History is only ever added to. */
  lemma {:induction false} HistoryKept(s: State, ops: seq<Op>, id: nat)
    requires id in s.history
    ensures id in Run(s, ops).history && s.history[id] <= Run(s, ops).history[id]
  {
    if ops != [] {
      HistoryKept(s, ops[..|ops| - 1], id);
      StepHistory(Run(s, ops[..|ops| - 1]), ops[|ops| - 1], id);
    }
  }

  lemma StepHistory(s: State, op: Op, id: nat)
    requires id in s.history
    ensures var t := Step(s, op).0; id in t.history && s.history[id] <= t.history[id]
  {
    if !op.Execute? {
      assert Step(s, op).0.history == s.history;
    }
  }
}
