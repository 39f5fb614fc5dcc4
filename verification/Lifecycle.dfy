/**
 * The lifecycle of funded grants: amendment, extension and termination
 * requests that are filed, approved and executed, refunds to the treasury,
 * and the money that moves on the way. There is no host to roll anything
 * back here, so "a failing call changes nothing" is proved from the code
 * order, in the class of LifecycleContract.
 */
module Lifecycle {
  import opened Results
  import opened GrantTerms
  import Review

  datatype Request = Request(
    grantId: nat,
    change: Change,
    requester: nat,
    reason: nat,
    oldSchedule: seq<Term>,
    confirmedAtRequest: nat,
    approvedBy: Option<nat>,
    previousStatus: Status,
    open: bool)

  datatype AmendmentRecord = AmendmentRecord(
    requestId: nat,
    change: Change,
    requester: nat,
    approver: nat,
    reason: nat,
    oldSchedule: seq<Term>,
    newSchedule: seq<Term>,
    refund: int)

  datatype State = State(
    governance: nat,
    grants: map<nat, Grant>,
    nextGrantId: nat,
    requests: map<nat, Request>,
    nextRequestId: nat,
    history: map<nat, seq<AmendmentRecord>>,
    inFlight: set<nat>,
    board: Review.State)

  datatype Op =
    | Create(caller: nat, recipient: nat, total: i128, terms: seq<Term>)
    | Confirm(caller: nat, id: nat, index: nat)
    | Claim(caller: nat, id: nat)
    | RequestChange(caller: nat, id: nat, change: Change, reason: nat)
    | Approve(caller: nat, request: nat)
    | CloseRequest(caller: nat, request: nat)
    | Execute(caller: nat, request: nat)
    | Refund(caller: nat, id: nat, accepted: bool)
    | OnBoard(op: Review.Op)

  type Outcome = (State, Result<int, GrantsError>)

  // ---------------------------------------------------------------------
  // Transitions
  // ---------------------------------------------------------------------

  function Fail(s: State, e: GrantsError): Outcome {
    (s, Err(e))
  }

  function Put(s: State, id: nat, g: Grant): State {
    s.(grants := s.grants[id := g])
  }

  function Recipients(grants: map<nat, Grant>): map<nat, nat> {
    map id | id in grants :: grants[id].recipient
  }

  function DoCreate(s: State, caller: nat, recipient: nat, total: i128, terms: seq<Term>): Outcome {
    if caller != s.governance then Fail(s, Unauthorized)
    else if total <= 0 then Fail(s, InvalidTotalAmount)
    else if terms == [] then Fail(s, NoMilestones)
    else
      var sum := ScanTerms(0, terms);
      if sum.Err? then Fail(s, if sum.error == InvalidMilestoneAmount then sum.error else MilestoneSumMismatch)
      else if sum.value != total then Fail(s, MilestoneSumMismatch)
      else
        (Put(s, s.nextGrantId, Grant(recipient, total, Fresh(terms), 0, Funded, None, 0, 0, 0)).(
           nextGrantId := s.nextGrantId + 1), Ok(s.nextGrantId))
  }

  function Confirmed(g: Grant, index: nat): Grant
    requires index < |g.milestones|
  {
    var m := g.milestones[index];
    g.(milestones := g.milestones[index := m.(confirmed := true)], claimable := g.claimable + m.amount)
  }

  function DoConfirm(s: State, caller: nat, id: nat, index: nat): Outcome {
    if caller != s.governance then Fail(s, Unauthorized)
    else if id !in s.grants then Fail(s, GrantNotFound)
    else
      var g := s.grants[id];
      if g.status == Terminated || g.status == Closed then Fail(s, InvalidState)
      else if index >= |g.milestones| then Fail(s, InvalidMilestoneIndex)
      else if exists k :: 0 <= k < index && !g.milestones[k].confirmed then Fail(s, MilestoneOutOfOrder)
      else if g.milestones[index].confirmed then Fail(s, MilestoneAlreadyConfirmed)
      else if !Review.QuorumMet(s.board, Recipients(s.grants), id) then Fail(s, ReviewQuorumNotMet)
      else (Put(s, id, Confirmed(g, index)), Ok(0))
  }

  function ClaimAll(ms: seq<Milestone>): (r: seq<Milestone>)
    ensures |r| == |ms|
  {
    seq(|ms|, i requires 0 <= i < |ms| => ms[i].(claimed := ms[i].claimed || ms[i].confirmed))
  }

  function Claimed(g: Grant): Grant {
    CloseIfSettled(g.(milestones := ClaimAll(g.milestones), claimable := 0))
  }

  function DoClaim(s: State, caller: nat, id: nat): Outcome {
    if id !in s.grants then Fail(s, GrantNotFound)
    else if s.grants[id].recipient != caller then Fail(s, NotRecipient)
    else if s.grants[id].claimable <= 0 then Fail(s, NothingToClaim)
    else (Put(s, id, Claimed(s.grants[id])), Ok(s.grants[id].claimable))
  }

  function RequestedStatus(change: Change): Status {
    match change
    case Amendment(_) => AmendmentRequested
    case Extension(_) => ExtensionRequested
    case Termination(_) => TerminationRequested
  }

  /** Stores a new request and makes its grant wait for it. */
  function File(s: State, id: nat, q: Request): State
    requires id in s.grants
  {
    var r := s.nextRequestId;
    Put(s, id, s.grants[id].(status := RequestedStatus(q.change), openRequest := Some(r))).(
      requests := s.requests[r := q], nextRequestId := r + 1)
  }

  function DoRequest(s: State, caller: nat, id: nat, change: Change, reason: nat): Outcome {
    if id !in s.grants then Fail(s, GrantNotFound)
    else
      var g := s.grants[id];
      if caller != g.recipient && caller != s.governance then Fail(s, Unauthorized)
      else if !AcceptsRequests(g.status) then Fail(s, InvalidState)
      else if Refusal(g, change).Some? then Fail(s, Refusal(g, change).value)
      else
        var q := Request(id, change, caller, reason, Schedule(g.milestones), ConfirmedCount(g.milestones), None,
                         g.status, true);
        (File(s, id, q), Ok(s.nextRequestId))
  }

  function FindOpen(s: State, r: nat): Result<Request, GrantsError> {
    if r !in s.requests then Err(RequestNotFound)
    else if !s.requests[r].open then Err(InvalidState)
    else Ok(s.requests[r])
  }

  /** Why this caller may not approve this request, if they may not. */
  function ApprovalRefusal(s: State, caller: nat, q: Request): Option<GrantsError> {
    if q.approvedBy.Some? then Some(RequestAlreadyApproved)
    else if caller == s.governance then None
    else if q.change.Termination? then Some(Unauthorized)
    else if caller == q.requester then Some(SelfReview)
    else
      var eligible := Review.RequireEligible(s.board, Recipients(s.grants), Review.Key(q.grantId, caller));
      if eligible.Err? then Some(eligible.error) else None
  }

  function DoApprove(s: State, caller: nat, r: nat): Outcome {
    var found := FindOpen(s, r);
    if found.Err? then Fail(s, found.error)
    else
      var refusal := ApprovalRefusal(s, caller, found.value);
      if refusal.Some? then Fail(s, refusal.value)
      else (s.(requests := s.requests[r := found.value.(approvedBy := Some(caller))]), Ok(0))
  }

  /** Closes the request and gives its grant a new value. */
  function Finish(s: State, r: nat, q: Request, g: Grant): State {
    Put(s, q.grantId, g).(requests := s.requests[r := q.(open := false)])
  }

  function DoClose(s: State, caller: nat, r: nat): Outcome {
    var found := FindOpen(s, r);
    if found.Err? then Fail(s, found.error)
    else
      var q := found.value;
      if caller != s.governance && caller != q.requester then Fail(s, Unauthorized)
      else if q.grantId !in s.grants then (s.(requests := s.requests[r := q.(open := false)]), Ok(0))
      else (Finish(s, r, q, s.grants[q.grantId].(status := q.previousStatus, openRequest := None)), Ok(0))
  }

  function Append(history: map<nat, seq<AmendmentRecord>>, id: nat, record: AmendmentRecord)
    : map<nat, seq<AmendmentRecord>>
  {
    history[id := (if id in history then history[id] else []) + [record]]
  }

  /** The schedule or the confirmed count has moved since the request was filed. */
  predicate IsStale(g: Grant, q: Request) {
    ConfirmedCount(g.milestones) != q.confirmedAtRequest || Schedule(g.milestones) != q.oldSchedule
  }

  function DoExecute(s: State, caller: nat, r: nat): Outcome {
    var found := FindOpen(s, r);
    if caller != s.governance then Fail(s, Unauthorized)
    else if found.Err? then Fail(s, found.error)
    else
      var q := found.value;
      if q.approvedBy.None? then Fail(s, RequestNotApproved)
      else if q.grantId !in s.grants then Fail(s, GrantNotFound)
      else
        var g := s.grants[q.grantId];
        if IsStale(g, q) then Fail(s, StaleRequest)
        else if Refusal(g, q.change).Some? then Fail(s, Refusal(g, q.change).value)
        else
          var (h, refund) := Executed(g, q.change);
          (Conclude(s, r, q, h, refund), Ok(0))
  }

  /** Closes an approved request with the grant it led to, and puts it on record. */
  function Conclude(s: State, r: nat, q: Request, h: Grant, refund: int): State
    requires q.approvedBy.Some?
  {
    var record := AmendmentRecord(r, q.change, q.requester, q.approvedBy.value, q.reason, q.oldSchedule,
                                  Schedule(h.milestones), refund);
    Finish(s, r, q, CloseIfSettled(h)).(history := Append(s.history, q.grantId, record))
  }

  function Refunded(g: Grant): Grant {
    CloseIfSettled(g.(pendingRefund := 0, refunded := g.refunded + g.pendingRefund))
  }

  function DoRefund(s: State, caller: nat, id: nat, accepted: bool): Outcome {
    if caller != s.governance then Fail(s, Unauthorized)
    else if id in s.inFlight then Fail(s, RefundInProgress)
    else if id !in s.grants then Fail(s, GrantNotFound)
    else if s.grants[id].pendingRefund <= 0 then Fail(s, NothingToRefund)
    else if !accepted then Fail(s, RefundFailed)
    else (Put(s, id, Refunded(s.grants[id])), Ok(s.grants[id].pendingRefund))
  }

  function Step(s: State, op: Op): Outcome {
    match op
    case Create(caller, recipient, total, terms) => DoCreate(s, caller, recipient, total, terms)
    case Confirm(caller, id, index) => DoConfirm(s, caller, id, index)
    case Claim(caller, id) => DoClaim(s, caller, id)
    case RequestChange(caller, id, change, reason) => DoRequest(s, caller, id, change, reason)
    case Approve(caller, r) => DoApprove(s, caller, r)
    case CloseRequest(caller, r) => DoClose(s, caller, r)
    case Execute(caller, r) => DoExecute(s, caller, r)
    case Refund(caller, id, accepted) => DoRefund(s, caller, id, accepted)
    case OnBoard(inner) =>
      var (board, r) := Review.Step(s.board, Recipients(s.grants), inner);
      (s.(board := board), if r.Ok? then Ok(0) else Err(r.error))
  }

  function Run(s: State, ops: seq<Op>): State {
    if ops == [] then s else Step(Run(s, ops[..|ops| - 1]), ops[|ops| - 1]).0
  }

  function Initial(governance: nat): State {
    State(governance, map[], 0, map[], 0, map[], {}, Review.Initial(governance))
  }
}
