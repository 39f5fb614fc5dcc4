/** What every lifecycle call keeps: each grant's books, and how requests, grants and history hang together. */
module LifecycleInvariant {
  import opened Results
  import opened GrantTerms
  import opened Lifecycle
  import Review

  // ---------------------------------------------------------------------
  // One grant through one call
  // ---------------------------------------------------------------------

  /**
   * What may ever happen to a grant: its award and recipient stay, its
   * confirmed milestones stay (apart from being paid out), ordered deadlines
   * stay ordered, and a closed grant stays as it is.
   */
  predicate Evolves(g: Grant, h: Grant) {
    && h.total == g.total && h.recipient == g.recipient
    && (Ordered(g.milestones) ==> Ordered(h.milestones))
    && FrontKept(g.milestones, h.milestones)
    && (g.status == Closed ==> h == g)
  }

  predicate FrontKept(ms: seq<Milestone>, ns: seq<Milestone>) {
    var c := ConfirmedCount(ms);
    && c <= ConfirmedCount(ns)
    && forall i :: 0 <= i < c ==> ns[i] == ms[i].(claimed := ns[i].claimed) && (ms[i].claimed ==> ns[i].claimed)
  }

  /** The grant is in order, its money is accounted for, and it came from the old one. */
  ghost predicate GoodStep(g: Grant, h: Grant, paid: int, refunded: int) {
    && GrantOk(h) && Evolves(g, h)
    && Part(h.milestones, Paid) == Part(g.milestones, Paid) + paid
    && h.refunded == g.refunded + refunded
  }

  lemma {:induction false} CountAtLeast(ms: seq<Milestone>, c: nat)
    requires c <= |ms| && forall i :: 0 <= i < c ==> ms[i].confirmed
    ensures c <= ConfirmedCount(ms)
  {
    if c > 0 {
      assert forall i :: 0 <= i < c - 1 ==> ms[1..][i] == ms[i + 1];
      CountAtLeast(ms[1..], c - 1);
    }
  }

  lemma SameFront(ms: seq<Milestone>, ns: seq<Milestone>)
    requires |ns| >= ConfirmedCount(ms)
    requires forall i :: 0 <= i < ConfirmedCount(ms) ==>
               ns[i].confirmed && ns[i] == ms[i].(confirmed := true, claimed := ns[i].claimed)
               && (ms[i].claimed ==> ns[i].claimed)
    ensures FrontKept(ms, ns)
  {
    ConfirmedFront(ms);
    CountAtLeast(ns, ConfirmedCount(ms));
  }

  lemma CloseKeeps(g: Grant, h: Grant, paid: int, refunded: int)
    requires GoodStep(g, h, paid, refunded) && (h.status == Terminated ==> Part(h.milestones, Unconfirmed) == 0)
    requires g.status != Closed
    ensures GoodStep(g, CloseIfSettled(h), paid, refunded)
  {
    PartUniform(h.milestones, Unconfirmed);
  }

  lemma ConfirmedGood(g: Grant, index: nat)
    requires GrantOk(g) && index < |g.milestones| && !g.milestones[index].confirmed
    requires g.status != Terminated && g.status != Closed
    requires forall k :: 0 <= k < index ==> g.milestones[k].confirmed
    ensures GoodStep(g, Confirmed(g, index), 0, 0)
  {
    var ms := g.milestones;
    var m := ms[index].(confirmed := true);
    PartUpdate(ms, index, m, Every);
    PartUpdate(ms, index, m, Unclaimed);
    PartUpdate(ms, index, m, Paid);
    ConfirmedFront(ms);
    SameFront(ms, ms[index := m]);
  }

  lemma {:induction false} ClaimAllParts(ms: seq<Milestone>)
    requires ClaimedOnlyConfirmed(ms)
    ensures Part(ClaimAll(ms), Every) == Part(ms, Every)
    ensures Part(ClaimAll(ms), Unconfirmed) == Part(ms, Unconfirmed)
    ensures Part(ClaimAll(ms), Unclaimed) == 0
    ensures Part(ClaimAll(ms), Paid) == Part(ms, Paid) + Part(ms, Unclaimed)
  {
    if ms != [] {
      var n := |ms| - 1;
      assert ClaimAll(ms)[..n] == ClaimAll(ms[..n]);
      ClaimAllParts(ms[..n]);
    }
  }

  lemma ClaimedGood(g: Grant)
    requires GrantOk(g) && g.status != Closed
    ensures GoodStep(g, Claimed(g), g.claimable, 0)
  {
    ClaimAllParts(g.milestones);
    ConfirmedFront(g.milestones);
    SameFront(g.milestones, ClaimAll(g.milestones));
    var h := g.(milestones := ClaimAll(g.milestones), claimable := 0);
    CloseKeeps(g, h, g.claimable, 0);
  }

  lemma RefundedGood(g: Grant)
    requires GrantOk(g) && g.status != Closed
    ensures GoodStep(g, Refunded(g), 0, g.pendingRefund)
  {
    ConfirmedFront(g.milestones);
    SameFront(g.milestones, g.milestones);
    var h := g.(pendingRefund := 0, refunded := g.refunded + g.pendingRefund);
    CloseKeeps(g, h, 0, g.pendingRefund);
  }

  lemma ExecutedGood(g: Grant, change: Change)
    requires GrantOk(g) && g.status != Closed && Refusal(g, change).None?
    ensures GoodStep(g, CloseIfSettled(Executed(g, change).0), 0, 0)
  {
    var h := Executed(g, change).0;
    ExecutedKeeps(g, change);
    NotRefused(g, change);
    RescheduledFront(g.milestones, change);
    if Ordered(g.milestones) {
      RescheduledOrdered(g.milestones, change);
    }
    PartsAddUp(h.milestones);
    CloseKeeps(g, h, 0, 0);
  }

  /** A change keeps the front, and pays nothing out: what is paid lies in the front. */
  lemma RescheduledFront(ms: seq<Milestone>, change: Change)
    requires Positive(ms) && ClaimedOnlyConfirmed(ms) && InOrder(ms) && Allowed(ms, change)
    ensures var ns := Rescheduled(ms, change).0;
            FrontKept(ms, ns) && Part(ns, Paid) == Part(ms, Paid)
  {
    var c := ConfirmedCount(ms);
    var ns := Rescheduled(ms, change).0;
    RescheduledShape(ms, change);
    KeepsFront(ms, ns);
    TailUnclaimed(ms, change);
    PaidInFront(ms, ns, c);
  }

  lemma KeepsFront(ms: seq<Milestone>, ns: seq<Milestone>)
    requires var c := ConfirmedCount(ms); c <= |ns| && ns[..c] == ms[..c]
    ensures FrontKept(ms, ns)
  {
    var c := ConfirmedCount(ms);
    ConfirmedFront(ms);
    forall i | 0 <= i < c
      ensures ns[i] == ms[i]
    {
      assert ns[..c][i] == ms[..c][i];
    }
    SameFront(ms, ns);
  }

  lemma TailUnclaimed(ms: seq<Milestone>, change: Change)
    requires ClaimedOnlyConfirmed(ms) && InOrder(ms)
    ensures var ns := Rescheduled(ms, change).0;
            && (forall i :: ConfirmedCount(ms) <= i < |ns| ==> !ns[i].claimed)
            && (forall i :: ConfirmedCount(ms) <= i < |ms| ==> !Picks(Paid, ms[i]))
  {
    ConfirmedFront(ms);
  }

  lemma PaidInFront(ms: seq<Milestone>, ns: seq<Milestone>, c: nat)
    requires c <= |ms| && c <= |ns| && ms[..c] == ns[..c]
    requires forall i :: c <= i < |ms| ==> !Picks(Paid, ms[i])
    requires forall i :: c <= i < |ns| ==> !ns[i].claimed
    ensures Part(ns, Paid) == Part(ms, Paid)
  {
    PaidPrefix(ms, c);
    PaidPrefix(ns, c);
  }

  lemma PaidPrefix(ms: seq<Milestone>, c: nat)
    requires c <= |ms| && forall i :: c <= i < |ms| ==> !Picks(Paid, ms[i])
    ensures Part(ms, Paid) == Part(ms[..c], Paid)
  {
    assert ms == ms[..c] + ms[c..];
    PartConcat(ms[..c], ms[c..], Paid);
    PartUniform(ms[c..], Paid);
  }

  lemma RestatedGood(g: Grant, status: Status, openRequest: Option<nat>)
    requires GrantOk(g) && g.status != Closed && g.status != Terminated && status != Closed && status != Terminated
    ensures GoodStep(g, g.(status := status, openRequest := openRequest), 0, 0)
  {
    ConfirmedFront(g.milestones);
    SameFront(g.milestones, g.milestones);
  }

  // ---------------------------------------------------------------------
  // The invariant
  // ---------------------------------------------------------------------

  predicate IsRequested(status: Status) {
    status == AmendmentRequested || status == ExtensionRequested || status == TerminationRequested
  }

  ghost predicate GrantsOk(s: State) {
    forall id :: id in s.grants ==> id < s.nextGrantId && GrantOk(s.grants[id])
  }

  /** Governance, or else, for a change short of termination, someone who neither asked for it nor is paid by it. */
  predicate ApproverAllowed(s: State, q: Request)
    requires q.grantId in s.grants
  {
    q.approvedBy.Some? ==>
      var a := q.approvedBy.value;
      a == s.governance
      || (!q.change.Termination? && a != q.requester && a != s.grants[q.grantId].recipient)
  }

  /** An open request is the one its grant is waiting for. */
  ghost predicate RequestOk(s: State, r: nat)
    requires r in s.requests
  {
    var q := s.requests[r];
    && r < s.nextRequestId && q.grantId in s.grants && AcceptsRequests(q.previousStatus)
    && (q.open ==> s.grants[q.grantId].openRequest == Some(r)
                   && s.grants[q.grantId].status == RequestedStatus(q.change))
    && ApproverAllowed(s, q)
  }

  /** A grant waits for a request exactly in the three requested states. */
  ghost predicate LinkOk(s: State, id: nat)
    requires id in s.grants
  {
    var g := s.grants[id];
    && (IsRequested(g.status) <==> g.openRequest.Some?)
    && (g.openRequest.Some? ==>
          var r := g.openRequest.value;
          r in s.requests && s.requests[r].open && s.requests[r].grantId == id)
  }

  /** A history entry tells what its request asked for and who approved it. */
  predicate RecordOk(s: State, id: nat, record: AmendmentRecord) {
    && record.requestId in s.requests
    && var q := s.requests[record.requestId];
    && !q.open && q.grantId == id && q.change == record.change && q.requester == record.requester
    && q.reason == record.reason && q.oldSchedule == record.oldSchedule && q.approvedBy == Some(record.approver)
  }

  ghost predicate HistoryOk(s: State) {
    forall id, k :: id in s.history && 0 <= k < |s.history[id]| ==> RecordOk(s, id, s.history[id][k])
  }

  ghost predicate RequestsOk(s: State) {
    && (forall r :: r in s.requests ==> RequestOk(s, r))
    && (forall id :: id in s.grants ==> LinkOk(s, id))
    && HistoryOk(s)
  }

  ghost predicate Inv(s: State) {
    && GrantsOk(s) && RequestsOk(s) && s.inFlight == {}
    && Review.Inv(s.board, Recipients(s.grants)) && s.board.governance == s.governance
  }

  /** The grant a request is about, when the request is open. */
  lemma OpenGrant(s: State, r: nat)
    requires Inv(s) && FindOpen(s, r).Ok?
    ensures var q := s.requests[r];
            && q.grantId in s.grants && s.grants[q.grantId].status == RequestedStatus(q.change)
            && AcceptsRequests(q.previousStatus)
  {
    assert RequestOk(s, r);
  }

  /** A grant that keeps its recipient, and its status as far as requests go, disturbs nothing else. */
  lemma PutLinks(s: State, id: nat, h: Grant)
    requires RequestsOk(s) && id in s.grants
    requires var g := s.grants[id];
             && h.recipient == g.recipient && h.openRequest == g.openRequest
             && (IsRequested(g.status) || IsRequested(h.status) ==> h.status == g.status)
    ensures RequestsOk(Put(s, id, h))
  {
    var t := Put(s, id, h);
    forall r | r in t.requests
      ensures RequestOk(t, r)
    {
      assert RequestOk(s, r);
    }
    forall k | k in t.grants
      ensures LinkOk(t, k)
    {
      assert LinkOk(s, k);
    }
    forall k, i | k in t.history && 0 <= i < |t.history[k]|
      ensures RecordOk(t, k, t.history[k][i])
    {
      assert RecordOk(s, k, s.history[k][i]);
    }
  }

  lemma PutKeeps(s: State, id: nat, h: Grant)
    requires Inv(s) && id in s.grants && GrantOk(h)
    requires var g := s.grants[id];
             && h.recipient == g.recipient && h.openRequest == g.openRequest
             && (IsRequested(g.status) || IsRequested(h.status) ==> h.status == g.status)
    ensures Inv(Put(s, id, h))
  {
    assert Recipients(Put(s, id, h).grants) == Recipients(s.grants);
    PutLinks(s, id, h);
  }

  lemma AddGrantLinks(s: State, id: nat, g: Grant)
    requires RequestsOk(s) && id !in s.grants && g.status == Funded && g.openRequest == None
    ensures RequestsOk(Put(s, id, g).(nextGrantId := id + 1))
  {
    var t := Put(s, id, g).(nextGrantId := id + 1);
    forall q | q in t.requests
      ensures RequestOk(t, q)
    {
      assert RequestOk(s, q);
    }
    forall k | k in t.grants
      ensures LinkOk(t, k)
    {
      assert k in s.grants ==> LinkOk(s, k);
    }
    forall k, i | k in t.history && 0 <= i < |t.history[k]|
      ensures RecordOk(t, k, t.history[k][i])
    {
      assert RecordOk(s, k, s.history[k][i]);
    }
  }

  lemma CreateKeeps(s: State, caller: nat, recipient: nat, total: i128, terms: seq<Term>)
    requires Inv(s)
    ensures Inv(DoCreate(s, caller, recipient, total, terms).0)
  {
    var (t, r) := DoCreate(s, caller, recipient, total, terms);
    if r.Ok? {
      var g := t.grants[s.nextGrantId];
      ScanMeaning(0, terms);
      FreshParts(terms);
      assert GrantOk(g);
      assert s.nextGrantId !in s.grants;
      AddGrantLinks(s, s.nextGrantId, g);
      Review.GrowsKeeps(s.board, Recipients(s.grants), Recipients(t.grants));
    }
  }

  lemma FileLinks(s: State, id: nat, q: Request)
    requires RequestsOk(s) && id in s.grants && AcceptsRequests(s.grants[id].status)
    requires s.nextRequestId !in s.requests
    requires q.grantId == id && q.open && q.approvedBy == None && q.previousStatus == s.grants[id].status
    ensures RequestsOk(File(s, id, q))
  {
    var t := File(s, id, q);
    assert LinkOk(s, id);
    forall r | r in t.requests
      ensures RequestOk(t, r)
    {
      assert r in s.requests ==> RequestOk(s, r);
    }
    forall k | k in t.grants
      ensures LinkOk(t, k)
    {
      assert LinkOk(s, k);
    }
    forall k, i | k in t.history && 0 <= i < |t.history[k]|
      ensures RecordOk(t, k, t.history[k][i])
    {
      assert RecordOk(s, k, s.history[k][i]);
    }
  }

  lemma RequestKeeps(s: State, caller: nat, id: nat, change: Change, reason: nat)
    requires Inv(s)
    ensures Inv(DoRequest(s, caller, id, change, reason).0)
  {
    var (t, r) := DoRequest(s, caller, id, change, reason);
    if r.Ok? {
      FileKeeps(s, id, t.requests[s.nextRequestId]);
    }
  }

  lemma FileKeeps(s: State, id: nat, q: Request)
    requires Inv(s) && id in s.grants && AcceptsRequests(s.grants[id].status)
    requires q.grantId == id && q.open && q.approvedBy == None && q.previousStatus == s.grants[id].status
    ensures Inv(File(s, id, q))
  {
    assert Recipients(File(s, id, q).grants) == Recipients(s.grants);
    NextRequestFree(s);
    FileLinks(s, id, q);
  }

  lemma NextRequestFree(s: State)
    requires RequestsOk(s)
    ensures s.nextRequestId !in s.requests
  {
    assert s.nextRequestId in s.requests ==> RequestOk(s, s.nextRequestId);
  }

  lemma ApproveLinks(s: State, r: nat, caller: nat)
    requires RequestsOk(s) && FindOpen(s, r).Ok? && s.requests[r].grantId in s.grants
    requires ApproverAllowed(s, s.requests[r].(approvedBy := Some(caller)))
    ensures RequestsOk(s.(requests := s.requests[r := s.requests[r].(approvedBy := Some(caller))]))
  {
    var t := s.(requests := s.requests[r := s.requests[r].(approvedBy := Some(caller))]);
    forall q | q in t.requests
      ensures RequestOk(t, q)
    {
      assert RequestOk(s, q);
    }
    forall k | k in t.grants
      ensures LinkOk(t, k)
    {
      assert LinkOk(s, k);
    }
    forall k, i | k in t.history && 0 <= i < |t.history[k]|
      ensures RecordOk(t, k, t.history[k][i])
    {
      assert RecordOk(s, k, s.history[k][i]);
    }
  }

  lemma ApproveKeeps(s: State, caller: nat, r: nat)
    requires Inv(s)
    ensures Inv(DoApprove(s, caller, r).0)
  {
    if DoApprove(s, caller, r).1.Ok? {
      assert RequestOk(s, r);
      ApproveLinks(s, r, caller);
    }
  }

  /** Closing the open request of a grant, which may change on the way. */
  lemma FinishLinks(s: State, r: nat, h: Grant)
    requires RequestsOk(s) && FindOpen(s, r).Ok? && s.requests[r].grantId in s.grants
    requires h.openRequest == None && !IsRequested(h.status)
    requires h.recipient == s.grants[s.requests[r].grantId].recipient
    ensures RequestsOk(Finish(s, r, s.requests[r], h))
  {
    var t := Finish(s, r, s.requests[r], h);
    assert RequestOk(s, r);
    forall q | q in t.requests
      ensures RequestOk(t, q)
    {
      assert RequestOk(s, q);
    }
    forall k | k in t.grants
      ensures LinkOk(t, k)
    {
      assert LinkOk(s, k);
    }
    forall k, i | k in t.history && 0 <= i < |t.history[k]|
      ensures RecordOk(t, k, t.history[k][i])
    {
      assert RecordOk(s, k, s.history[k][i]);
    }
  }

  lemma FinishKeeps(s: State, r: nat, h: Grant)
    requires Inv(s) && FindOpen(s, r).Ok? && s.requests[r].grantId in s.grants
    requires GrantOk(h) && h.openRequest == None && !IsRequested(h.status)
    requires h.recipient == s.grants[s.requests[r].grantId].recipient
    ensures Inv(Finish(s, r, s.requests[r], h))
  {
    assert Recipients(Finish(s, r, s.requests[r], h).grants) == Recipients(s.grants);
    FinishLinks(s, r, h);
  }

  lemma CloseKeepsInv(s: State, caller: nat, r: nat)
    requires Inv(s)
    ensures Inv(DoClose(s, caller, r).0)
  {
    if FindOpen(s, r).Ok? {
      var q := s.requests[r];
      assert RequestOk(s, r);
      var g := s.grants[q.grantId];
      FinishKeeps(s, r, g.(status := q.previousStatus, openRequest := None));
    }
  }

  /** What a successful execution has checked, and what it leads to. */
  lemma ExecuteSuccess(s: State, caller: nat, r: nat)
    requires DoExecute(s, caller, r).1.Ok?
    ensures r in s.requests && FindOpen(s, r).Ok?
    ensures var q := s.requests[r];
            && q.approvedBy.Some? && q.grantId in s.grants
            && !IsStale(s.grants[q.grantId], q) && Refusal(s.grants[q.grantId], q.change).None?
            && var (h, refund) := Executed(s.grants[q.grantId], q.change);
            DoExecute(s, caller, r).0 == Conclude(s, r, q, h, refund)
  {
  }

  lemma ExecuteKeeps(s: State, caller: nat, r: nat)
    requires Inv(s)
    ensures Inv(DoExecute(s, caller, r).0)
  {
    if DoExecute(s, caller, r).1.Ok? {
      ExecuteSuccess(s, caller, r);
      ExecutedConcludes(s, r);
    } else {
      assert DoExecute(s, caller, r).0 == s;
    }
  }

  lemma ExecutedConcludes(s: State, r: nat)
    requires Inv(s) && FindOpen(s, r).Ok? && s.requests[r].approvedBy.Some? && s.requests[r].grantId in s.grants
    requires Refusal(s.grants[s.requests[r].grantId], s.requests[r].change).None?
    ensures var q := s.requests[r];
            var (h, refund) := Executed(s.grants[q.grantId], q.change);
            Inv(Conclude(s, r, q, h, refund))
  {
    var q := s.requests[r];
    var g := s.grants[q.grantId];
    OpenGrant(s, r);
    ExecutedGood(g, q.change);
    ExecutedReleases(g, q.change);
    var (h, refund) := Executed(g, q.change);
    ConcludeKeeps(s, r, h, refund);
  }

  lemma ExecutedReleases(g: Grant, change: Change)
    ensures var h := Executed(g, change).0;
            h.openRequest == None && !IsRequested(h.status) && h.recipient == g.recipient
  {
  }

  lemma ConcludeKeeps(s: State, r: nat, h: Grant, refund: int)
    requires Inv(s) && FindOpen(s, r).Ok? && s.requests[r].grantId in s.grants && s.requests[r].approvedBy.Some?
    requires GrantOk(CloseIfSettled(h)) && h.openRequest == None && !IsRequested(h.status)
    requires h.recipient == s.grants[s.requests[r].grantId].recipient
    ensures Inv(Conclude(s, r, s.requests[r], h, refund))
  {
    var q := s.requests[r];
    FinishKeeps(s, r, CloseIfSettled(h));
    var record := AmendmentRecord(r, q.change, q.requester, q.approvedBy.value, q.reason, q.oldSchedule,
                                  Schedule(h.milestones), refund);
    AppendKeeps(Finish(s, r, q, CloseIfSettled(h)), q.grantId, record);
  }

  lemma AppendKeeps(s: State, id: nat, record: AmendmentRecord)
    requires Inv(s) && RecordOk(s, id, record)
    ensures Inv(s.(history := Append(s.history, id, record)))
  {
    var t := s.(history := Append(s.history, id, record));
    forall q | q in t.requests
      ensures RequestOk(t, q)
    {
      assert RequestOk(s, q);
    }
    forall k | k in t.grants
      ensures LinkOk(t, k)
    {
      assert LinkOk(s, k);
    }
    forall k, i | k in t.history && 0 <= i < |t.history[k]|
      ensures RecordOk(t, k, t.history[k][i])
    {
      if k in s.history && i < |s.history[k]| {
        assert RecordOk(s, k, s.history[k][i]);
      }
    }
  }

  lemma BoardKeeps(s: State, op: Review.Op)
    requires Inv(s)
    ensures Inv(Step(s, OnBoard(op)).0)
  {
    var t := Step(s, OnBoard(op)).0;
    Review.StepKeeps(s.board, Recipients(s.grants), op);
    forall q | q in t.requests
      ensures RequestOk(t, q)
    {
      assert RequestOk(s, q);
    }
    forall k | k in t.grants
      ensures LinkOk(t, k)
    {
      assert LinkOk(s, k);
    }
    assert forall k, i :: k in t.history && 0 <= i < |t.history[k]| ==> RecordOk(s, k, t.history[k][i]);
  }

  lemma ConfirmKeeps(s: State, caller: nat, id: nat, index: nat)
    requires Inv(s)
    ensures Inv(DoConfirm(s, caller, id, index).0)
  {
    if DoConfirm(s, caller, id, index).1.Ok? {
      ConfirmedGood(s.grants[id], index);
      PutKeeps(s, id, Confirmed(s.grants[id], index));
    }
  }

  lemma ClaimKeeps(s: State, caller: nat, id: nat)
    requires Inv(s)
    ensures Inv(DoClaim(s, caller, id).0)
  {
    if DoClaim(s, caller, id).1.Ok? {
      ClaimedGood(s.grants[id]);
      PutKeeps(s, id, Claimed(s.grants[id]));
    }
  }

  lemma RefundKeeps(s: State, caller: nat, id: nat, accepted: bool)
    requires Inv(s)
    ensures Inv(DoRefund(s, caller, id, accepted).0)
  {
    if DoRefund(s, caller, id, accepted).1.Ok? {
      RefundedGood(s.grants[id]);
      PutKeeps(s, id, Refunded(s.grants[id]));
    }
  }

  lemma StepKeeps(s: State, op: Op)
    requires Inv(s)
    ensures Inv(Step(s, op).0)
  {
    match op {
      case Create(caller, recipient, total, terms) => CreateKeeps(s, caller, recipient, total, terms);
      case Confirm(caller, id, index) => ConfirmKeeps(s, caller, id, index);
      case Claim(caller, id) => ClaimKeeps(s, caller, id);
      case RequestChange(caller, id, change, reason) => RequestKeeps(s, caller, id, change, reason);
      case Approve(caller, r) => ApproveKeeps(s, caller, r);
      case CloseRequest(caller, r) => CloseKeepsInv(s, caller, r);
      case Execute(caller, r) => ExecuteKeeps(s, caller, r);
      case Refund(caller, id, accepted) => RefundKeeps(s, caller, id, accepted);
      case OnBoard(inner) => BoardKeeps(s, inner);
    }
  }

  lemma InitialOk(governance: nat)
    ensures Inv(Initial(governance))
  {
  }

  lemma {:induction false} RunKeeps(governance: nat, ops: seq<Op>)
    ensures Inv(Run(Initial(governance), ops))
  {
    InitialOk(governance);
    if ops != [] {
      RunKeeps(governance, ops[..|ops| - 1]);
      StepKeeps(Run(Initial(governance), ops[..|ops| - 1]), ops[|ops| - 1]);
    }
  }
}
