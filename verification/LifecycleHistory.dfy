/** Requests and grants of the lifecycle, traced back to the calls that made them what they are. */
module LifecycleHistory {
  import opened Results
  import opened History
  import opened GrantTerms
  import opened GrantChanges
  import opened Lifecycle
  import opened LifecycleInvariant
  import opened LifecycleRuns
  import Review

  /** An accepted call and what it returned. */
  datatype Entry = Entry(op: Op, value: int)

  function Log(s: State, ops: seq<Op>): seq<Entry> {
    if ops == [] then []
    else
      var n := |ops| - 1;
      var r := Step(Run(s, ops[..n]), ops[n]).1;
      Log(s, ops[..n]) + if r.Ok? then [Entry(ops[n], r.value)] else []
  }

  function Creating(): Entry -> bool {
    (e: Entry) => e.op.Create?
  }

  function Creates(id: nat): Entry -> bool {
    (e: Entry) => e.op.Create? && e.value == id
  }

  function Filing(): Entry -> bool {
    (e: Entry) => e.op.RequestChange?
  }

  function Files(r: nat): Entry -> bool {
    (e: Entry) => e.op.RequestChange? && e.value == r
  }

  function Approves(r: nat): Entry -> bool {
    (e: Entry) => e.op.Approve? && e.op.request == r
  }

  /** Closed without effect, or executed. */
  function Ends(r: nat): Entry -> bool {
    (e: Entry) => (e.op.CloseRequest? || e.op.Execute?) && e.op.request == r
  }

  function ApproverBy(log: seq<Entry>, r: nat): Option<nat> {
    match Last(log, Approves(r))
    case Some(e) => if e.op.Approve? then Some(e.op.caller) else None
    case None => None
  }

  /** A request is the one filing that returned its id, as far as it was approved and ended since. */
  ghost predicate RequestTraced(s: State, log: seq<Entry>, r: nat) {
    var e := Last(log, Files(r));
    && (r in s.requests <==> e.Some?) && Count(log, Files(r)) == (if r in s.requests then 1 else 0)
    && (r !in s.requests ==> Last(log, Approves(r)).None? && Last(log, Ends(r)).None?)
    && (r in s.requests && e.Some? && e.value.op.RequestChange? ==>
          var q := s.requests[r];
          && q.grantId == e.value.op.id && q.change == e.value.op.change && q.requester == e.value.op.caller
          && q.reason == e.value.op.reason
          && q.approvedBy == ApproverBy(log, r) && (q.open <==> Last(log, Ends(r)).None?)
          && q.grantId in s.grants && (q.requester == s.governance || q.requester == s.grants[q.grantId].recipient))
  }

  /** A grant is the one creation that returned its id: its award and its recipient are that call's. */
  ghost predicate GrantTraced(s: State, log: seq<Entry>, id: nat) {
    var e := Last(log, Creates(id));
    && (id in s.grants <==> e.Some?) && Count(log, Creates(id)) == (if id in s.grants then 1 else 0)
    && (id in s.grants && e.Some? && e.value.op.Create? ==>
          s.grants[id].recipient == e.value.op.recipient && s.grants[id].total == e.value.op.total)
  }

  ghost predicate HistoryOk(s: State, log: seq<Entry>) {
    && s.nextGrantId == Count(log, Creating()) && s.nextRequestId == Count(log, Filing())
    && (forall id :: GrantTraced(s, log, id))
    && (forall r :: RequestTraced(s, log, r))
  }

  // ---------------------------------------------------------------------
  // What an accepted call changes
  // ---------------------------------------------------------------------

  /** Only the closing check may follow: everything paid, or terminated, and nothing left to claim or refund. */
  predicate Settling(g: Grant, h: Grant) {
    && h == g.(status := h.status)
    && h.status == (if g.claimable == 0 && g.pendingRefund == 0
                       && (g.status == Terminated
                           || (InForce(g.status)
                               && forall i :: 0 <= i < |g.milestones| ==>
                                    g.milestones[i].confirmed && g.milestones[i].claimed))
                    then Closed else g.status)
  }

  /** Funded, as it was or as changed, and waiting for nothing. */
  predicate InForce(status: Status) {
    status == Funded || status == Amended || status == Extended
  }

  predicate OnlyGrant(s: State, t: State, id: nat) {
    && id in s.grants && id in t.grants
    && t == s.(grants := s.grants[id := t.grants[id]])
  }

  /** The effect of an accepted call on a state, and what it found there. */
  ghost predicate Effect(s: State, t: State, e: Entry) {
    match e.op
    case Create(caller, recipient, total, terms) =>
      && caller == s.governance && e.value == s.nextGrantId && e.value in t.grants
      && t == s.(grants := s.grants[s.nextGrantId := t.grants[s.nextGrantId]], nextGrantId := s.nextGrantId + 1)
      && var g := t.grants[s.nextGrantId];
      && g == Grant(recipient, total, g.milestones, 0, Funded, None, 0, 0, 0) && Lists(terms, g.milestones)
      && forall i :: 0 <= i < |g.milestones| ==> !g.milestones[i].confirmed && !g.milestones[i].claimed
    case Confirm(caller, id, index) =>
      && caller == s.governance && e.value == 0 && OnlyGrant(s, t, id)
      && var ms := s.grants[id].milestones;
      && index < |ms| && !ms[index].confirmed && (forall k :: 0 <= k < index ==> ms[k].confirmed)
      && Review.QuorumMet(s.board, Recipients(s.grants), id)
      && t.grants[id] == s.grants[id].(milestones := ms[index := ms[index].(confirmed := true)],
                                       claimable := s.grants[id].claimable + ms[index].amount)
    case Claim(caller, id) =>
      && OnlyGrant(s, t, id) && caller == s.grants[id].recipient && e.value == s.grants[id].claimable > 0
      && var ms, ns := s.grants[id].milestones, t.grants[id].milestones;
      && |ns| == |ms| && (forall i :: 0 <= i < |ms| ==> ns[i] == ms[i].(claimed := ms[i].claimed || ms[i].confirmed))
      && Settling(s.grants[id].(milestones := ns, claimable := 0), t.grants[id])
    case RequestChange(caller, id, change, reason) =>
      && id in s.grants && (caller == s.grants[id].recipient || caller == s.governance)
      && InForce(s.grants[id].status) && Refusal(s.grants[id], change).None? && e.value == s.nextRequestId
      && t == s.(grants := s.grants[id := s.grants[id].(status := RequestedStatus(change),
                                                        openRequest := Some(s.nextRequestId))],
                 requests := s.requests[s.nextRequestId := AsFiled(s.grants[id], caller, id, change, reason)],
                 nextRequestId := s.nextRequestId + 1)
    case Approve(caller, r) =>
      && e.value == 0 && r in s.requests && s.requests[r].open && s.requests[r].approvedBy.None?
      && t == s.(requests := s.requests[r := s.requests[r].(approvedBy := Some(caller))])
    case CloseRequest(caller, r) =>
      && e.value == 0 && r in s.requests && s.requests[r].open
      && (caller == s.governance || caller == s.requests[r].requester)
      && var id := s.requests[r].grantId;
      && id in s.grants
      && t == s.(requests := s.requests[r := s.requests[r].(open := false)],
                 grants := s.grants[id := s.grants[id].(status := s.requests[r].previousStatus, openRequest := None)])
    case Execute(caller, r) =>
      && caller == s.governance && e.value == 0 && r in s.requests && s.requests[r].open
      && s.requests[r].approvedBy.Some? && CarriesOut(s, t, r, s.requests[r])
      && var id := s.requests[r].grantId;
      && t == s.(requests := s.requests[r := s.requests[r].(open := false)],
                 grants := s.grants[id := t.grants[id]], history := s.history[id := t.history[id]])
    case Refund(caller, id, accepted) =>
      && caller == s.governance && accepted && OnlyGrant(s, t, id) && e.value == s.grants[id].pendingRefund > 0
      && Settling(s.grants[id].(pendingRefund := 0, refunded := s.grants[id].refunded + s.grants[id].pendingRefund),
                  t.grants[id])
    case OnBoard(inner) => e.value == 0 && t == s.(board := t.board)
  }

  lemma RefusedStep(s: State, op: Op)
    requires Step(s, op).1.Err?
    ensures Step(s, op).0 == s
  {
  }

  lemma StepEffect(s: State, op: Op)
    requires Inv(s) && Step(s, op).1.Ok?
    ensures Effect(s, Step(s, op).0, Entry(op, Step(s, op).1.value))
  {
    match op {
      case Create(caller, recipient, total, terms) => CreateEffect(s, caller, recipient, total, terms);
      case Confirm(caller, id, index) => ConfirmEffect(s, caller, id, index);
      case Claim(caller, id) => ClaimEffect(s, caller, id);
      case RequestChange(caller, id, change, reason) => RequestEffect(s, caller, id, change, reason);
      case Approve(caller, r) => ApproveEffect(s, caller, r);
      case CloseRequest(caller, r) => CloseEffect(s, caller, r);
      case Execute(caller, r) => ExecuteEffect(s, caller, r);
      case Refund(caller, id, accepted) => RefundEffect(s, caller, id, accepted);
      case OnBoard(inner) =>
    }
  }

  lemma CreateEffect(s: State, caller: nat, recipient: nat, total: i128, terms: seq<Term>)
    requires DoCreate(s, caller, recipient, total, terms).1.Ok?
    ensures var (t, r) := DoCreate(s, caller, recipient, total, terms);
            Effect(s, t, Entry(Create(caller, recipient, total, terms), r.value))
  {
  }

  lemma ConfirmEffect(s: State, caller: nat, id: nat, index: nat)
    requires DoConfirm(s, caller, id, index).1.Ok?
    ensures var (t, r) := DoConfirm(s, caller, id, index); Effect(s, t, Entry(Confirm(caller, id, index), r.value))
  {
  }

  lemma ClaimEffect(s: State, caller: nat, id: nat)
    requires DoClaim(s, caller, id).1.Ok?
    ensures var (t, r) := DoClaim(s, caller, id); Effect(s, t, Entry(Claim(caller, id), r.value))
  {
  }

  lemma RequestEffect(s: State, caller: nat, id: nat, change: Change, reason: nat)
    requires DoRequest(s, caller, id, change, reason).1.Ok?
    ensures var (t, r) := DoRequest(s, caller, id, change, reason);
            Effect(s, t, Entry(RequestChange(caller, id, change, reason), r.value))
  {
  }

  lemma ApproveEffect(s: State, caller: nat, r: nat)
    requires DoApprove(s, caller, r).1.Ok?
    ensures var (t, q) := DoApprove(s, caller, r); Effect(s, t, Entry(Approve(caller, r), q.value))
  {
  }

  lemma CloseEffect(s: State, caller: nat, r: nat)
    requires Inv(s) && DoClose(s, caller, r).1.Ok?
    ensures var (t, q) := DoClose(s, caller, r); Effect(s, t, Entry(CloseRequest(caller, r), q.value))
  {
    OpenGrant(s, r);
  }

  lemma ExecuteEffect(s: State, caller: nat, r: nat)
    requires Inv(s) && DoExecute(s, caller, r).1.Ok?
    ensures var (t, q) := DoExecute(s, caller, r); Effect(s, t, Entry(Execute(caller, r), q.value))
  {
    ExecutesOwnRequest(s, caller, r);
    ExecuteSuccess(s, caller, r);
  }

  lemma RefundEffect(s: State, caller: nat, id: nat, accepted: bool)
    requires DoRefund(s, caller, id, accepted).1.Ok?
    ensures var (t, r) := DoRefund(s, caller, id, accepted); Effect(s, t, Entry(Refund(caller, id, accepted), r.value))
  {
  }

  // ---------------------------------------------------------------------
  // Whole runs
  // ---------------------------------------------------------------------

  lemma GrantStep(s: State, t: State, log: seq<Entry>, e: Entry, id: nat)
    requires Effect(s, t, e) && GrantTraced(s, log, id) && (id in s.grants ==> id < s.nextGrantId)
    requires id in s.grants ==>
               id in t.grants && t.grants[id].recipient == s.grants[id].recipient && t.grants[id].total == s.grants[id].total
    requires id !in s.grants && id in t.grants ==> e.op.Create? && e.value == id
    ensures GrantTraced(t, log + [e], id)
  {
    LastSnoc(log, e, Creates(id));
    CountSnoc(log, e, Creates(id));
  }

  /** Which grants there are, who receives them and what they award changes by creation only. */
  lemma AwardsStay(s: State, t: State, e: Entry, id: nat)
    requires Effect(s, t, e) && (id in s.grants ==> id < s.nextGrantId)
    ensures id in s.grants ==>
              id in t.grants && t.grants[id].recipient == s.grants[id].recipient && t.grants[id].total == s.grants[id].total
    ensures id !in s.grants && id in t.grants ==> e.op.Create? && e.value == id
  {
  }

  lemma CountersMove(s: State, t: State, e: Entry)
    requires Effect(s, t, e)
    ensures t.governance == s.governance
    ensures t.nextGrantId == s.nextGrantId + (if e.op.Create? then 1 else 0)
    ensures t.nextRequestId == s.nextRequestId + (if e.op.RequestChange? then 1 else 0)
  {
  }

  /** What an entry can do to one request, and that the grant it is about stays with its recipient. */
  ghost predicate RequestMoved(s: State, t: State, e: Entry, r: nat) {
    && t.governance == s.governance
    && (r in t.requests <==> r in s.requests || Files(r)(e))
    && (r in s.requests ==> !Files(r)(e))
    && (Approves(r)(e) || Ends(r)(e) ==> r in s.requests)
    && (r in s.requests ==>
          t.requests[r] == if Approves(r)(e) then s.requests[r].(approvedBy := Some(e.op.caller))
                           else if Ends(r)(e) then s.requests[r].(open := false)
                           else s.requests[r])
    && (Files(r)(e) ==>
          && e.op.id in s.grants && (e.op.caller == s.grants[e.op.id].recipient || e.op.caller == s.governance)
          && t.requests[r] == AsFiled(s.grants[e.op.id], e.op.caller, e.op.id, e.op.change, e.op.reason))
  }

  lemma RequestMoves(s: State, t: State, e: Entry, r: nat)
    requires Effect(s, t, e) && (r in s.requests ==> r < s.nextRequestId)
    ensures RequestMoved(s, t, e, r)
  {
  }

  lemma RequestStep(s: State, t: State, log: seq<Entry>, e: Entry, r: nat)
    requires Inv(s) && Effect(s, t, e) && RequestTraced(s, log, r)
    ensures RequestTraced(t, log + [e], r)
  {
    if r in s.requests {
      assert RequestOk(s, r);
    }
    RequestMoves(s, t, e, r);
    forall id | id in s.grants
      ensures id in t.grants && t.grants[id].recipient == s.grants[id].recipient
    {
      AwardsStay(s, t, e, id);
    }
    MovedTraced(s, t, log, e, r);
  }

  lemma MovedTraced(s: State, t: State, log: seq<Entry>, e: Entry, r: nat)
    requires RequestMoved(s, t, e, r) && RequestTraced(s, log, r)
    requires forall id :: id in s.grants ==> id in t.grants && t.grants[id].recipient == s.grants[id].recipient
    ensures RequestTraced(t, log + [e], r)
  {
    LastSnoc(log, e, Files(r));
    CountSnoc(log, e, Files(r));
    LastSnoc(log, e, Approves(r));
    LastSnoc(log, e, Ends(r));
  }

  /**
   * On every run, a request is what the one call that filed it asked for, by
   * the recipient or governance, approved by the last caller to approve it and
   * open until a call ended it; and a grant is what its one creation awarded.
   */
  lemma {:induction false} RunIsTraced(governance: nat, ops: seq<Op>)
    ensures HistoryOk(Run(Initial(governance), ops), Log(Initial(governance), ops))
  {
    if ops != [] {
      var n := |ops| - 1;
      var s, log := Run(Initial(governance), ops[..n]), Log(Initial(governance), ops[..n]);
      RunIsTraced(governance, ops[..n]);
      RunKeeps(governance, ops[..n]);
      if Step(s, ops[n]).1.Ok? {
        StepEffect(s, ops[n]);
        EffectTraced(s, Step(s, ops[n]).0, log, Entry(ops[n], Step(s, ops[n]).1.value));
      } else {
        RefusedStep(s, ops[n]);
        assert log + [] == log;
      }
    }
  }

  lemma EffectTraced(s: State, t: State, log: seq<Entry>, e: Entry)
    requires Inv(s) && Effect(s, t, e) && HistoryOk(s, log)
    ensures HistoryOk(t, log + [e])
  {
    CountSnoc(log, e, Creating());
    CountSnoc(log, e, Filing());
    CountersMove(s, t, e);
    forall id ensures GrantTraced(t, log + [e], id) {
      AwardsStay(s, t, e, id);
      GrantStep(s, t, log, e, id);
    }
    forall r ensures RequestTraced(t, log + [e], r) {
      RequestStep(s, t, log, e, r);
    }
  }

  // ---------------------------------------------------------------------
  // What is accepted
  // ---------------------------------------------------------------------

  /** Filed, and not ended since. */
  predicate IsOpen(log: seq<Entry>, r: nat) {
    Last(log, Files(r)).Some? && Last(log, Files(r)).value.op.RequestChange? && Last(log, Ends(r)).None?
  }

  predicate MayApprove(s: State, filed: Op, caller: nat)
    requires filed.RequestChange?
  {
    || caller == s.governance
    || (!filed.change.Termination? && caller != filed.caller
        && Review.Eligible(s.board, Recipients(s.grants), Review.Key(filed.id, caller)))
  }

  /** What the calls made so far and the grant as it is allow. */
  ghost predicate Welcome(s: State, log: seq<Entry>, op: Op) {
    match op
    case Create(caller, _, total, terms) =>
      && caller == s.governance && terms != [] && (forall i :: 0 <= i < |terms| ==> terms[i].amount > 0)
      && TermSum(terms) == total
    case Confirm(caller, id, index) =>
      && caller == s.governance && id in s.grants && s.grants[id].status != Terminated && s.grants[id].status != Closed
      && index < |s.grants[id].milestones| && index == ConfirmedCount(s.grants[id].milestones)
      && Review.QuorumMet(s.board, Recipients(s.grants), id)
    case Claim(caller, id) => id in s.grants && caller == s.grants[id].recipient && s.grants[id].claimable > 0
    case RequestChange(caller, id, change, _) =>
      && id in s.grants && (caller == s.grants[id].recipient || caller == s.governance)
      && InForce(s.grants[id].status) && Proper(s.grants[id], change)
    case Approve(caller, r) =>
      IsOpen(log, r) && Last(log, Approves(r)).None? && MayApprove(s, Last(log, Files(r)).value.op, caller)
    case CloseRequest(caller, r) =>
      IsOpen(log, r) && (caller == s.governance || caller == Last(log, Files(r)).value.op.caller)
    case Execute(caller, r) =>
      && caller == s.governance && IsOpen(log, r) && Last(log, Approves(r)).Some? && r in s.requests
      && var q := s.requests[r];
      && q.grantId in s.grants && var g := s.grants[q.grantId];
      && Lists(q.oldSchedule, g.milestones) && ConfirmedCount(g.milestones) == q.confirmedAtRequest && Proper(g, q.change)
    case Refund(caller, id, accepted) =>
      caller == s.governance && id in s.grants && s.grants[id].pendingRefund > 0 && accepted
    case OnBoard(inner) => Review.Step(s.board, Recipients(s.grants), inner).1.Ok?
  }

  /** After any run, a call is accepted exactly if the accepted calls before it and the grant it is about allow it. */
  lemma AcceptedByHistory(governance: nat, ops: seq<Op>, op: Op)
    ensures var s, log := Run(Initial(governance), ops), Log(Initial(governance), ops);
            Step(s, op).1.Ok? <==> Welcome(s, log, op)
  {
    var s, log := Run(Initial(governance), ops), Log(Initial(governance), ops);
    RunIsTraced(governance, ops);
    RunKeeps(governance, ops);
    match op {
      case Create(caller, recipient, total, terms) =>
        CreateWelcome(s, log, caller, recipient, total, terms);
      case Confirm(caller, id, index) => ConfirmWelcome(s, log, caller, id, index);
      case RequestChange(caller, id, change, reason) => RequestWelcome(s, log, caller, id, change, reason);
      case Approve(caller, r) => ApproveWelcome(s, log, caller, r);
      case CloseRequest(caller, r) =>
        assert RequestTraced(s, log, r);
      case Execute(caller, r) => ExecuteWelcome(s, log, caller, r);
      case _ =>
    }
  }

  /** The next milestone in order is the one behind the confirmed front. */
  lemma NextInOrder(ms: seq<Milestone>, index: nat)
    ensures (index < |ms| && index == ConfirmedCount(ms))
       <==> index < |ms| && !ms[index].confirmed && forall k :: 0 <= k < index ==> ms[k].confirmed
  {
    ConfirmedFront(ms);
  }

  lemma CreateWelcome(s: State, log: seq<Entry>, caller: nat, recipient: nat, total: i128, terms: seq<Term>)
    ensures DoCreate(s, caller, recipient, total, terms).1.Ok? <==> Welcome(s, log, Create(caller, recipient, total, terms))
  {
    ScanExactly(0, terms);
  }

  lemma ConfirmWelcome(s: State, log: seq<Entry>, caller: nat, id: nat, index: nat)
    ensures DoConfirm(s, caller, id, index).1.Ok? <==> Welcome(s, log, Confirm(caller, id, index))
  {
    if id in s.grants {
      NextInOrder(s.grants[id].milestones, index);
    }
  }

  lemma RequestWelcome(s: State, log: seq<Entry>, caller: nat, id: nat, change: Change, reason: nat)
    requires Inv(s)
    ensures DoRequest(s, caller, id, change, reason).1.Ok? <==> Welcome(s, log, RequestChange(caller, id, change, reason))
  {
    if id in s.grants {
      RefusedExactly(s.grants[id], change);
    }
  }

  lemma ApproveWelcome(s: State, log: seq<Entry>, caller: nat, r: nat)
    requires Inv(s) && RequestTraced(s, log, r)
    ensures DoApprove(s, caller, r).1.Ok? <==> Welcome(s, log, Approve(caller, r))
  {
    if r in s.requests {
      Review.EligibleExactly(s.board, Recipients(s.grants), Review.Key(s.requests[r].grantId, caller));
    }
  }

  lemma ExecuteWelcome(s: State, log: seq<Entry>, caller: nat, r: nat)
    requires Inv(s) && RequestTraced(s, log, r)
    ensures DoExecute(s, caller, r).1.Ok? <==> Welcome(s, log, Execute(caller, r))
  {
    if r in s.requests && s.requests[r].grantId in s.grants {
      var q, g := s.requests[r], s.grants[s.requests[r].grantId];
      RefusedExactly(g, q.change);
      assert Schedule(g.milestones) == q.oldSchedule <==> Lists(q.oldSchedule, g.milestones);
    }
  }

  /**
   * Closing a request undoes its filing, however many calls lie between: the
   * grant has the status it had before, waits for nothing, and is otherwise as
   * those calls left it.
   */
  lemma ClosingUndoesFiling(s: State, caller: nat, id: nat, change: Change, reason: nat, between: seq<Op>, closer: nat)
    requires Inv(s) && DoRequest(s, caller, id, change, reason).1.Ok?
    requires DoClose(Run(DoRequest(s, caller, id, change, reason).0, between), closer, s.nextRequestId).1.Ok?
    ensures var t := Run(DoRequest(s, caller, id, change, reason).0, between);
            var u := DoClose(t, closer, s.nextRequestId).0;
            && id in s.grants && id in t.grants
            && s.nextRequestId in u.requests && !u.requests[s.nextRequestId].open
            && u.grants == t.grants[id := t.grants[id].(status := s.grants[id].status, openRequest := None)]
  {
    var filed := DoRequest(s, caller, id, change, reason).0;
    RequestKeeps(s, caller, id, change, reason);
    FilesRequest(s, caller, id, change, reason);
    RunRequest(filed, between, s.nextRequestId);
    CloseEffect(Run(filed, between), closer, s.nextRequestId);
  }
}
