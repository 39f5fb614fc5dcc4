/** The lifecycle contract as it runs: its loops, and its methods in the code's own order. */
module LifecycleContract {
  import opened Results
  import opened GrantTerms
  import opened Lifecycle
  import opened LifecycleInvariant
  import Review
  import WideMath

  // ---------------------------------------------------------------------
  // The loops
  // ---------------------------------------------------------------------

  method PendingOf(ms: seq<Milestone>) returns (pending: seq<Milestone>)
    ensures pending == Pending(ms)
  {
    pending := [];
    for i := 0 to |ms|
      invariant pending == Pending(ms[..i])
    {
      assert ms[..i + 1][..i] == ms[..i];
      if !ms[i].confirmed {
        pending := pending + [ms[i]];
      }
    }
    assert ms[..|ms|] == ms;
  }

  method LatestConfirmedDue(ms: seq<Milestone>) returns (due: u64)
    ensures due == LastConfirmedDue(ms)
  {
    due := 0;
    for i := 0 to |ms|
      invariant due == LastConfirmedDue(ms[..i])
    {
      assert ms[..i + 1][..i] == ms[..i];
      if ms[i].confirmed {
        due := MaxU64(due, ms[i].due);
      }
    }
    assert ms[..|ms|] == ms;
  }

  method CountConfirmed(ms: seq<Milestone>) returns (n: nat)
    ensures n == ConfirmedCount(ms)
  {
    n := 0;
    assert ms[0..] == ms;
    while n < |ms| && ms[n].confirmed
      invariant n <= |ms|
      invariant n + ConfirmedCount(ms[n..]) == ConfirmedCount(ms)
    {
      assert ms[n..][1..] == ms[n + 1..];
      n := n + 1;
    }
  }

  method AddTerms(terms: seq<Term>) returns (r: Result<i128, GrantsError>)
    ensures r == ScanTerms(0, terms)
  {
    var sum: i128 := 0;
    assert terms[0..] == terms;
    for i := 0 to |terms|
      invariant ScanTerms(0, terms) == ScanTerms(sum, terms[i..])
    {
      assert terms[i..][1..] == terms[i + 1..];
      if terms[i].amount <= 0 {
        return Err(InvalidMilestoneAmount);
      }
      if !FitsI128(sum + terms[i].amount) {
        return Err(AmendmentExceedsAward);
      }
      sum := sum + terms[i].amount;
    }
    return Ok(sum);
  }

  /** The dates against the pending milestones they are for, pair by pair. */
  method MovesLater(pending: seq<Milestone>, dates: seq<u64>) returns (r: Option<bool>)
    requires |dates| == |pending|
    ensures r.None? <==> !OnlyLater(pending, dates)
    ensures r.Some? ==> r.value == SomeLater(pending, dates)
  {
    var later := false;
    for i := 0 to |pending|
      invariant forall k :: 0 <= k < i ==> dates[k] >= pending[k].due && (pending[k].due == 0 ==> dates[k] == 0)
      invariant later <==> exists k :: 0 <= k < i && dates[k] > pending[k].due
    {
      if dates[i] < pending[i].due || (pending[i].due == 0 && dates[i] != 0) {
        return None;
      }
      later := later || dates[i] > pending[i].due;
    }
    return Some(later);
  }

  method ValidateChange(g: Grant, change: Change) returns (r: Option<GrantsError>)
    ensures r == Refusal(g, change)
  {
    var pending := PendingOf(g.milestones);
    var floor := LatestConfirmedDue(g.milestones);
    match change {
      case Amendment(terms) =>
        if pending == [] {
          return Some(AmendmentAfterFinalMilestone);
        }
        if g.amendments >= MAX_AMENDMENTS {
          return Some(TooManyAmendments);
        }
        if terms == [] {
          return Some(InvalidSchedule);
        }
        var sum := AddTerms(terms);
        if sum.Err? {
          return Some(sum.error);
        }
        if sum.value > Part(g.milestones, Unconfirmed) {
          return Some(AmendmentExceedsAward);
        }
        var ordered := AreDatesOrdered(floor, Dates(terms));
        return if ordered then None else Some(InvalidSchedule);
      case Extension(dates) =>
        if pending == [] {
          return Some(AmendmentAfterFinalMilestone);
        }
        if g.amendments >= MAX_AMENDMENTS {
          return Some(TooManyAmendments);
        }
        if |dates| != |pending| {
          return Some(InvalidExtension);
        }
        var later := MovesLater(pending, dates);
        if later.None? {
          return Some(InvalidExtension);
        }
        var ordered := AreDatesOrdered(floor, dates);
        return if later.value && ordered then None else Some(InvalidExtension);
      case Termination(bps) =>
        if !(0 <= bps <= WideMath.BPS_DENOM) {
          return Some(InvalidEarnedShare);
        }
        if pending == [] || Escrowed(g) <= 0 {
          return Some(NothingEscrowed);
        }
        return None;
    }
  }

  method Amend(ms: seq<Milestone>, confirmed: nat, terms: seq<Term>) returns (r: seq<Milestone>, refund: int)
    requires confirmed == ConfirmedCount(ms)
    ensures (r, refund) == Rescheduled(ms, Amendment(terms))
  {
    var newTotal := 0;
    r := ms[..confirmed];
    for i := 0 to |terms|
      invariant r == ms[..confirmed] + Fresh(terms)[..i]
      invariant newTotal == TermSum(terms[..i])
    {
      assert terms[..i + 1][..i] == terms[..i];
      r := r + [Milestone(terms[i].amount, terms[i].due, false, false)];
      newTotal := newTotal + terms[i].amount;
    }
    assert terms[..|terms|] == terms && Fresh(terms)[..|terms|] == Fresh(terms);
    refund := Part(ms, Unconfirmed) - newTotal;
  }

  method Extend(ms: seq<Milestone>, confirmed: nat, dates: seq<u64>) returns (r: seq<Milestone>)
    requires confirmed == ConfirmedCount(ms) && confirmed + |dates| == |ms|
    ensures (r, 0) == Rescheduled(ms, Extension(dates))
  {
    r := ms;
    for i := 0 to |dates|
      invariant |r| == |ms|
      invariant forall k :: 0 <= k < |ms| ==>
                  r[k] == if confirmed <= k < confirmed + i then ms[k].(due := dates[k - confirmed]) else ms[k]
    {
      r := r[confirmed + i := r[confirmed + i].(due := dates[i])];
    }
    assert r == ms[..confirmed] + Redated(ms[confirmed..], dates);
  }

  /** Credits the floored share of the next milestone and adds up what becomes refundable. */
  method Terminate(ms: seq<Milestone>, confirmed: nat, bps: i128)
    returns (r: seq<Milestone>, refund: int, earned: int)
    requires confirmed == ConfirmedCount(ms) < |ms| && Positive(ms) && 0 <= bps <= WideMath.BPS_DENOM
    ensures (r, refund) == Rescheduled(ms, Termination(bps))
    ensures earned == Earned(ms[confirmed].amount, bps)
  {
    refund, earned := 0, 0;
    var tail := ms[confirmed..];
    for i := 0 to |tail|
      invariant i > 0 ==> earned == Earned(ms[confirmed].amount, bps)
      invariant refund == Part(tail[..i], Every) - if i > 0 then Earned(ms[confirmed].amount, bps) else 0
    {
      assert tail[..i + 1][..i] == tail[..i];
      if i == 0 {
        var split := WideMath.SplitBps(tail[0].amount, bps);
        earned := split.value.cut;
        refund := refund + split.value.rest;
      } else {
        refund := refund + tail[i].amount;
      }
    }
    assert tail[..|tail|] == tail;
    r := ms[..confirmed];
    PartialWorth(ms[confirmed], bps);
    if earned > 0 {
      r := r + [Milestone(earned, ms[confirmed].due, true, false)];
    }
    assert r == ms[..confirmed] + Partial(ms[confirmed], bps);
  }

  method MarkClaimed(milestones: seq<Milestone>) returns (ms: seq<Milestone>)
    ensures ms == ClaimAll(milestones)
  {
    ms := milestones;
    for i := 0 to |ms|
      invariant |ms| == |milestones|
      invariant forall k :: 0 <= k < |ms| ==> ms[k] == if k < i then ClaimAll(milestones)[k] else milestones[k]
    {
      if ms[i].confirmed {
        ms := ms[i := ms[i].(claimed := true)];
      }
    }
  }

  // ---------------------------------------------------------------------
  // The contract
  // ---------------------------------------------------------------------

  class RefractGrants {
    const governance: nat
    const board: Review.Board
    var grants: map<nat, Grant>
    var nextGrantId: nat
    var requests: map<nat, Request>
    var nextRequestId: nat
    var history: map<nat, seq<AmendmentRecord>>
    var inFlight: set<nat>

    constructor (governance: nat)
      ensures View() == Initial(governance) && fresh(board)
    {
      this.governance := governance;
      board := new Review.Board(governance);
      grants, nextGrantId, requests, nextRequestId := map[], 0, map[], 0;
      history, inFlight := map[], {};
    }

    function View(): State
      reads this, board
    {
      State(governance, grants, nextGrantId, requests, nextRequestId, history, inFlight, board.View())
    }

    method CreateGrant(caller: nat, recipient: nat, total: i128, terms: seq<Term>)
      returns (r: Result<int, GrantsError>)
      modifies this
      ensures (View(), r) == DoCreate(old(View()), caller, recipient, total, terms)
    {
      if caller != governance {
        return Err(Unauthorized);
      }
      if total <= 0 {
        return Err(InvalidTotalAmount);
      }
      if terms == [] {
        return Err(NoMilestones);
      }
      var sum := AddTerms(terms);
      if sum.Err? {
        return Err(if sum.error == InvalidMilestoneAmount then sum.error else MilestoneSumMismatch);
      }
      if sum.value != total {
        return Err(MilestoneSumMismatch);
      }
      var id := nextGrantId;
      nextGrantId := id + 1;
      grants := grants[id := Grant(recipient, total, Fresh(terms), 0, Funded, None, 0, 0, 0)];
      return Ok(id);
    }

    method ConfirmMilestone(caller: nat, id: nat, index: nat) returns (r: Result<int, GrantsError>)
      modifies this`grants
      ensures (View(), r) == DoConfirm(old(View()), caller, id, index)
    {
      if caller != governance {
        return Err(Unauthorized);
      }
      if id !in grants {
        return Err(GrantNotFound);
      }
      var g := grants[id];
      if g.status == Terminated || g.status == Closed {
        return Err(InvalidState);
      }
      if index >= |g.milestones| {
        return Err(InvalidMilestoneIndex);
      }
      for k := 0 to index
        invariant forall j :: 0 <= j < k ==> g.milestones[j].confirmed
      {
        if !g.milestones[k].confirmed {
          return Err(MilestoneOutOfOrder);
        }
      }
      var m := g.milestones[index];
      if m.confirmed {
        return Err(MilestoneAlreadyConfirmed);
      }
      var approvals := board.ApprovalCount(Recipients(grants), id);
      if approvals < board.quorum {
        return Err(ReviewQuorumNotMet);
      }
      g := g.(milestones := g.milestones[index := m.(confirmed := true)]);
      g := g.(claimable := g.claimable + m.amount);
      grants := grants[id := g];
      return Ok(0);
    }

    method ClaimGrant(caller: nat, id: nat) returns (r: Result<int, GrantsError>)
      modifies this`grants
      ensures (View(), r) == DoClaim(old(View()), caller, id)
    {
      if id !in grants {
        return Err(GrantNotFound);
      }
      var g := grants[id];
      if g.recipient != caller {
        return Err(NotRecipient);
      }
      var amount := g.claimable;
      if amount <= 0 {
        return Err(NothingToClaim);
      }
      var ms := MarkClaimed(g.milestones);
      grants := grants[id := g.(milestones := ms, claimable := 0)];
      CloseSettled(id);
      assert grants == old(grants)[id := Claimed(g)];
      return Ok(amount);
    }

    method FileRequest(caller: nat, id: nat, change: Change, reason: nat) returns (r: Result<int, GrantsError>)
      modifies this
      ensures (View(), r) == DoRequest(old(View()), caller, id, change, reason)
    {
      if id !in grants {
        return Err(GrantNotFound);
      }
      var g := grants[id];
      if caller != g.recipient && caller != governance {
        return Err(Unauthorized);
      }
      if !AcceptsRequests(g.status) {
        return Err(InvalidState);
      }
      var refusal := ValidateChange(g, change);
      if refusal.Some? {
        return Err(refusal.value);
      }
      var confirmed := CountConfirmed(g.milestones);
      var q := Request(id, change, caller, reason, Schedule(g.milestones), confirmed, None, g.status, true);
      var request := nextRequestId;
      nextRequestId := request + 1;
      requests := requests[request := q];
      grants := grants[id := g.(status := RequestedStatus(change), openRequest := Some(request))];
      return Ok(request);
    }

    method ApproveRequest(caller: nat, request: nat) returns (r: Result<int, GrantsError>)
      modifies this`requests
      ensures (View(), r) == DoApprove(old(View()), caller, request)
    {
      var found := FindOpen(View(), request);
      if found.Err? {
        return Err(found.error);
      }
      var q := found.value;
      if q.approvedBy.Some? {
        return Err(RequestAlreadyApproved);
      }
      if caller != governance {
        if q.change.Termination? {
          return Err(Unauthorized);
        }
        if caller == q.requester {
          return Err(SelfReview);
        }
        var eligible := Review.RequireEligible(board.View(), Recipients(grants), Review.Key(q.grantId, caller));
        if eligible.Err? {
          return Err(eligible.error);
        }
      }
      requests := requests[request := q.(approvedBy := Some(caller))];
      return Ok(0);
    }

    method CloseOpenRequest(caller: nat, request: nat) returns (r: Result<int, GrantsError>)
      modifies this
      ensures (View(), r) == DoClose(old(View()), caller, request)
    {
      var found := FindOpen(View(), request);
      if found.Err? {
        return Err(found.error);
      }
      var q := found.value;
      if caller != governance && caller != q.requester {
        return Err(Unauthorized);
      }
      FinishRequest(request, q.grantId, q.previousStatus);
      return Ok(0);
    }

    method FinishRequest(request: nat, id: nat, status: Status)
      modifies this`requests, this`grants
      ensures requests == if request in old(requests)
                          then old(requests)[request := old(requests)[request].(open := false)] else old(requests)
      ensures grants == if id in old(grants)
                        then old(grants)[id := old(grants)[id].(status := status, openRequest := None)]
                        else old(grants)
    {
      if request in requests {
        requests := requests[request := requests[request].(open := false)];
      }
      if id in grants {
        grants := grants[id := grants[id].(status := status, openRequest := None)];
      }
    }

    method ExecuteRequest(caller: nat, request: nat) returns (r: Result<int, GrantsError>)
      requires Inv(View())
      modifies this
      ensures (View(), r) == DoExecute(old(View()), caller, request)
    {
      if caller != governance {
        return Err(Unauthorized);
      }
      var found := FindOpen(View(), request);
      if found.Err? {
        return Err(found.error);
      }
      var q := found.value;
      if q.approvedBy.None? {
        return Err(RequestNotApproved);
      }
      var id := q.grantId;
      if id !in grants {
        return Err(GrantNotFound);
      }
      var g := grants[id];
      var confirmed := CountConfirmed(g.milestones);
      if confirmed != q.confirmedAtRequest || Schedule(g.milestones) != q.oldSchedule {
        return Err(StaleRequest);
      }
      var refusal := ValidateChange(g, q.change);
      if refusal.Some? {
        return Err(refusal.value);
      }
      var h, refund := ApplyChange(g, q.change, confirmed);
      Commit(request, q, h, refund);
      return Ok(0);
    }

    /** Stores the changed grant, puts the change on record, and closes the request, then the grant if it is settled. */
    method Commit(request: nat, q: Request, h: Grant, refund: int)
      requires request in requests && requests[request] == q && q.approvedBy.Some? && h.openRequest == None
      modifies this
      ensures View() == Conclude(old(View()), request, q, h, refund)
    {
      var id := q.grantId;
      grants := grants[id := h];
      var record := AmendmentRecord(request, q.change, q.requester, q.approvedBy.value, q.reason, q.oldSchedule,
                                    Schedule(h.milestones), refund);
      history := history[id := (if id in history then history[id] else []) + [record]];
      FinishRequest(request, id, h.status);
      CloseSettled(id);
      assert grants == old(grants)[id := CloseIfSettled(h)];
    }

    /** A grant that its own status says may be closed is closed. */
    method CloseSettled(id: nat)
      modifies this`grants
      ensures grants == if id in old(grants) then old(grants)[id := CloseIfSettled(old(grants)[id])] else old(grants)
    {
      if id !in grants {
        return;
      }
      var g := grants[id];
      var allPaid := true;
      for i := 0 to |g.milestones|
        invariant allPaid <==> AllPaid(g.milestones[..i])
      {
        if !(g.milestones[i].confirmed && g.milestones[i].claimed) {
          allPaid := false;
        }
      }
      assert g.milestones[..|g.milestones|] == g.milestones;
      var settled := g.claimable == 0 && g.pendingRefund == 0;
      var closable := false;
      match g.status {
        case Terminated => closable := settled;
        case Funded => closable := settled && allPaid;
        case Amended => closable := settled && allPaid;
        case Extended => closable := settled && allPaid;
        case _ =>
      }
      grants := grants[id := if closable then g.(status := Closed) else g];
    }

    /** The books are written before the treasury is called, and put back if it refuses. */
    method ExecuteRefund(caller: nat, id: nat, accepted: bool) returns (r: Result<int, GrantsError>)
      modifies this
      ensures (View(), r) == DoRefund(old(View()), caller, id, accepted)
    {
      if caller != governance {
        return Err(Unauthorized);
      }
      if id in inFlight {
        return Err(RefundInProgress);
      }
      if id !in grants {
        return Err(GrantNotFound);
      }
      var amount := grants[id].pendingRefund;
      if amount <= 0 {
        return Err(NothingToRefund);
      }
      grants := grants[id := grants[id].(pendingRefund := 0, refunded := grants[id].refunded + amount)];
      inFlight := inFlight + {id};
      // The treasury answers here.
      inFlight := inFlight - {id};
      assert inFlight == old(inFlight);
      if !accepted {
        grants := grants[id := grants[id].(pendingRefund := amount, refunded := grants[id].refunded - amount)];
        assert grants == old(grants);
        return Err(RefundFailed);
      }
      CloseSettled(id);
      assert grants == old(grants)[id := Refunded(old(grants)[id])];
      return Ok(amount);
    }
  }

  /** What executing a change does to the grant. */
  method ApplyChange(g: Grant, change: Change, confirmed: nat) returns (h: Grant, refund: int)
    requires GrantOk(g) && Refusal(g, change).None? && confirmed == ConfirmedCount(g.milestones)
    ensures (h, refund) == Executed(g, change)
  {
    match change {
      case Amendment(terms) =>
        h, refund := ApplyAmendment(g, terms, confirmed);
      case Extension(dates) =>
        PendingIsTail(g.milestones);
        h, refund := ApplyExtension(g, dates, confirmed);
      case Termination(bps) =>
        h, refund := ApplyTermination(g, bps, confirmed);
    }
  }

  /** The partial credit is not negative, and it is what a termination makes claimable. */
  lemma CreditIsEarned(g: Grant, bps: i128)
    requires GrantOk(g) && Refusal(g, Termination(bps)).None?
    ensures var c := ConfirmedCount(g.milestones);
            && c < |g.milestones| && Positive(g.milestones) && 0 <= bps <= WideMath.BPS_DENOM
            && 0 <= Earned(g.milestones[c].amount, bps) == Executed(g, Termination(bps)).0.claimable - g.claimable
  {
    TerminationMeaning(g, bps);
    EarnedWithin(g.milestones[ConfirmedCount(g.milestones)].amount, bps);
  }

  method ApplyAmendment(g: Grant, terms: seq<Term>, confirmed: nat) returns (h: Grant, refund: int)
    requires confirmed == ConfirmedCount(g.milestones)
    ensures (h, refund) == Executed(g, Amendment(terms))
  {
    var ms;
    ms, refund := Amend(g.milestones, confirmed, terms);
    h := g.(milestones := ms, amendments := g.amendments + 1);
    h := h.(pendingRefund := h.pendingRefund + refund, status := Amended, openRequest := None);
  }

  method ApplyExtension(g: Grant, dates: seq<u64>, confirmed: nat) returns (h: Grant, refund: int)
    requires confirmed == ConfirmedCount(g.milestones) && confirmed + |dates| == |g.milestones|
    ensures (h, refund) == Executed(g, Extension(dates))
  {
    var ms := Extend(g.milestones, confirmed, dates);
    refund := 0;
    h := g.(milestones := ms, amendments := g.amendments + 1);
    h := h.(pendingRefund := h.pendingRefund + refund, status := Extended, openRequest := None);
  }

  method ApplyTermination(g: Grant, bps: i128, confirmed: nat) returns (h: Grant, refund: int)
    requires GrantOk(g) && Refusal(g, Termination(bps)).None? && confirmed == ConfirmedCount(g.milestones)
    ensures (h, refund) == Executed(g, Termination(bps))
  {
    CreditIsEarned(g, bps);
    h, refund := CreditAndRefund(g, bps, confirmed);
  }

  method CreditAndRefund(g: Grant, bps: i128, confirmed: nat) returns (h: Grant, refund: int)
    requires confirmed == ConfirmedCount(g.milestones) < |g.milestones|
    requires Positive(g.milestones) && 0 <= bps <= WideMath.BPS_DENOM
    requires 0 <= Earned(g.milestones[confirmed].amount, bps)
          == Executed(g, Termination(bps)).0.claimable - g.claimable
    ensures (h, refund) == Executed(g, Termination(bps))
  {
    var ms, earned;
    ms, refund, earned := Terminate(g.milestones, confirmed, bps);
    h := g.(milestones := ms);
    if earned > 0 {
      h := h.(claimable := h.claimable + earned);
    }
    h := h.(pendingRefund := h.pendingRefund + refund, status := Terminated, openRequest := None);
  }
}
