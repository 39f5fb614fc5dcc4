/** What a change to a grant is allowed to ask for, and what it does, milestone by milestone. */
module GrantChanges {
  import opened Results
  import opened GrantTerms
  import WideMath

  /** Each date is none at all, or not before a deadline of the confirmed front or an earlier date of its own. */
  predicate InDateOrder(ms: seq<Milestone>, c: nat, dates: seq<u64>)
    requires c <= |ms|
  {
    && (forall i, j :: 0 <= i < |dates| && 0 <= j < c ==> dates[i] == 0 || dates[i] >= ms[j].due)
    && (forall i, j :: 0 <= i < j < |dates| ==> dates[j] == 0 || dates[i] <= dates[j])
  }

  /** No pending deadline is brought forward, and none is added where there was none. */
  predicate NoneEarlier(ms: seq<Milestone>, c: nat, dates: seq<u64>)
    requires c <= |ms| && |dates| == |ms| - c
  {
    forall k :: 0 <= k < |dates| ==> dates[k] >= ms[c + k].due && (ms[c + k].due == 0 ==> dates[k] == 0)
  }

  ghost predicate OneLater(ms: seq<Milestone>, c: nat, dates: seq<u64>)
    requires c <= |ms| && |dates| == |ms| - c
  {
    exists k :: 0 <= k < |dates| && dates[k] > ms[c + k].due
  }

  /** What the documentation asks of a change. */
  ghost predicate Proper(g: Grant, change: Change) {
    var ms, c := g.milestones, ConfirmedCount(g.milestones);
    && c < |ms|
    && match change
       case Amendment(terms) =>
         && g.amendments < MAX_AMENDMENTS && terms != []
         && (forall i :: 0 <= i < |terms| ==> terms[i].amount > 0)
         && TermSum(terms) <= Part(ms, Unconfirmed) && InDateOrder(ms, c, Dates(terms))
       case Extension(dates) =>
         && g.amendments < MAX_AMENDMENTS && |dates| == |ms| - c
         && NoneEarlier(ms, c, dates) && OneLater(ms, c, dates)
         && InDateOrder(ms, c, dates)
       case Termination(bps) => 0 <= bps <= WideMath.BPS_DENOM
  }

  /** The status a change leads to, before the closing check. */
  function ChangedStatus(change: Change): Status {
    match change
    case Amendment(_) => Amended
    case Extension(_) => Extended
    case Termination(_) => Terminated
  }

  /** The share of the next milestone that a termination credits. */
  function Credit(g: Grant, bps: i128): int {
    var c := ConfirmedCount(g.milestones);
    if c < |g.milestones| then Earned(g.milestones[c].amount, bps) else 0
  }

  /** What a change makes of the milestones behind the confirmed front. */
  ghost predicate TailChanged(ms: seq<Milestone>, ns: seq<Milestone>, c: nat, change: Change)
    requires c < |ms|
  {
    match change
    case Amendment(terms) =>
      && |ns| == c + |terms|
      && forall k :: 0 <= k < |terms| ==> ns[c + k] == Milestone(terms[k].amount, terms[k].due, false, false)
    case Extension(dates) =>
      Postponed(ms, ns, c, dates)
    case Termination(bps) =>
      var earned := Earned(ms[c].amount, bps);
      && |ns| == c + (if earned > 0 then 1 else 0)
      && (earned > 0 ==> ns[c].amount == earned && ns[c].due == ms[c].due && ns[c].confirmed && !ns[c].claimed)
  }

  /** What a change makes of the money: nothing is paid, and what is no longer to be paid is refundable. */
  predicate FundsMoved(g: Grant, h: Grant, change: Change) {
    && h.recipient == g.recipient && h.total == g.total && h.refunded == g.refunded
    && match change
       case Amendment(terms) =>
         && h.claimable == g.claimable && h.amendments == g.amendments + 1
         && h.pendingRefund == g.pendingRefund + Part(g.milestones, Unconfirmed) - TermSum(terms)
       case Extension(_) =>
         h.claimable == g.claimable && h.amendments == g.amendments + 1 && h.pendingRefund == g.pendingRefund
       case Termination(bps) =>
         && h.claimable == g.claimable + Credit(g, bps) && h.amendments == g.amendments
         && h.pendingRefund == g.pendingRefund + Part(g.milestones, Unconfirmed) - Credit(g, bps)
  }

  /** The whole effect of a change, milestone by milestone. */
  ghost predicate Changes(g: Grant, h: Grant, change: Change) {
    var ms, ns, c := g.milestones, h.milestones, ConfirmedCount(g.milestones);
    && c < |ms| && c <= |ns| && ns[..c] == ms[..c]
    && TailChanged(ms, ns, c, change) && FundsMoved(g, h, change) && h.openRequest == None
    && h.status == (if change.Termination? && h.claimable == 0 && h.pendingRefund == 0 then Closed
                    else ChangedStatus(change))
  }

  /** A change is refused exactly if it is not a proper one. */
  lemma RefusedExactly(g: Grant, change: Change)
    requires GrantOk(g)
    ensures Refusal(g, change).None? <==> Proper(g, change)
  {
    PendingIsTail(g.milestones);
    match change {
      case Amendment(terms) => AmendmentExactly(g, terms);
      case Extension(dates) => ExtensionExactly(g, dates);
      case Termination(bps) =>
        if ConfirmedCount(g.milestones) < |g.milestones| {
          EscrowGuardImplied(g);
        }
    }
  }

  lemma AmendmentExactly(g: Grant, terms: seq<Term>)
    requires GrantOk(g) && Pending(g.milestones) == g.milestones[ConfirmedCount(g.milestones)..]
    ensures Refusal(g, Amendment(terms)).None? <==> Proper(g, Amendment(terms))
  {
    AmountsFit(g);
    ScanExactly(0, terms);
    DatesExactly(g, Dates(terms));
  }

  lemma ExtensionExactly(g: Grant, dates: seq<u64>)
    requires GrantOk(g) && Pending(g.milestones) == g.milestones[ConfirmedCount(g.milestones)..]
    ensures Refusal(g, Extension(dates)).None? <==> Proper(g, Extension(dates))
  {
    DatesExactly(g, dates);
    ExtensionGuards(g, dates, ConfirmedCount(g.milestones));
  }

  lemma ExtensionGuards(g: Grant, dates: seq<u64>, c: nat)
    requires c == ConfirmedCount(g.milestones) && Pending(g.milestones) == g.milestones[c..]
    requires DatesOrdered(LastConfirmedDue(g.milestones), dates) <==> InDateOrder(g.milestones, c, dates)
    ensures Refusal(g, Extension(dates)).None? <==> Proper(g, Extension(dates))
  {
    if |dates| == |g.milestones| - c {
      LaterExactly(g.milestones, c, dates);
    }
  }

  lemma {:induction false} ScanExactly(acc: i128, terms: seq<Term>)
    requires acc >= 0
    ensures (forall i :: 0 <= i < |terms| ==> terms[i].amount > 0) ==> TermSum(terms) >= |terms|
    ensures ScanTerms(acc, terms).Ok? <==>
              (forall i :: 0 <= i < |terms| ==> terms[i].amount > 0) && acc + TermSum(terms) <= I128_MAX
    ensures ScanTerms(acc, terms).Ok? ==> ScanTerms(acc, terms).value == acc + TermSum(terms)
    decreases |terms|
  {
    if terms != [] {
      assert terms == [terms[0]] + terms[1..];
      TermSumConcat([terms[0]], terms[1..]);
      assert TermSum([terms[0]]) == terms[0].amount;
      assert forall i :: 1 <= i < |terms| ==> terms[i] == terms[1..][i - 1];
      if terms[0].amount > 0 && FitsI128(acc + terms[0].amount) {
        ScanExactly(acc + terms[0].amount, terms[1..]);
      } else {
        ScanExactly(0, terms[1..]);
      }
    }
  }

  lemma DatesExactly(g: Grant, dates: seq<u64>)
    requires GrantOk(g)
    ensures DatesOrdered(LastConfirmedDue(g.milestones), dates)
       <==> InDateOrder(g.milestones, ConfirmedCount(g.milestones), dates)
  {
    DatesOrderedMeaning(LastConfirmedDue(g.milestones), dates);
    LastConfirmedDueIsMax(g.milestones);
    ConfirmedFront(g.milestones);
  }

  lemma LaterExactly(ms: seq<Milestone>, c: nat, dates: seq<u64>)
    requires c <= |ms| && |dates| == |ms| - c
    ensures OnlyLater(ms[c..], dates) <==> NoneEarlier(ms, c, dates)
    ensures SomeLater(ms[c..], dates) <==> OneLater(ms, c, dates)
  {
    assert forall k :: 0 <= k < |dates| ==> ms[c..][k] == ms[c + k];
    if k :| 0 <= k < |dates| && dates[k] > ms[c + k].due {
      assert dates[k] > ms[c..][k].due;
    }
  }

  // ---------------------------------------------------------------------
  // What executing a change does
  // ---------------------------------------------------------------------

  /** An executed change has exactly the effect it was filed for. */
  lemma ExecutedChanges(g: Grant, change: Change)
    requires GrantOk(g) && Refusal(g, change).None?
    ensures Changes(g, CloseIfSettled(Executed(g, change).0), change)
  {
    NotRefused(g, change);
    ConfirmedFront(g.milestones);
    ExecutedKeeps(g, change);
    match change {
      case Amendment(terms) =>
        AmendmentMeaning(g, terms);
        AmendmentChanges(g, terms);
      case Extension(dates) =>
        var h := Executed(g, change).0;
        ExtensionShape(g, dates);
        ExtensionMeaning(g, dates);
        assert h.milestones[ConfirmedCount(g.milestones) + 0] == g.milestones[ConfirmedCount(g.milestones) + 0].(due := dates[0]);
        StaysOpen(h, ConfirmedCount(g.milestones));
        ExtensionChanges(g, h, dates);
      case Termination(bps) =>
        TerminationMeaning(g, bps);
        TerminationChanges(g, bps);
    }
  }

  lemma AmendmentChanges(g: Grant, terms: seq<Term>)
    requires GrantOk(g) && Refusal(g, Amendment(terms)).None? && ConfirmedCount(g.milestones) < |g.milestones|
    ensures Changes(g, CloseIfSettled(Executed(g, Amendment(terms)).0), Amendment(terms))
  {
    var h := Executed(g, Amendment(terms)).0;
    StaysOpen(h, ConfirmedCount(g.milestones));
  }

  lemma ExtensionShape(g: Grant, dates: seq<u64>)
    ensures var c := ConfirmedCount(g.milestones);
            var ms := g.milestones[..c] + Redated(g.milestones[c..], dates);
            Executed(g, Extension(dates)).0
            == g.(milestones := ms, openRequest := None, status := Extended, amendments := g.amendments + 1)
  {
  }

  lemma ExtensionChanges(g: Grant, h: Grant, dates: seq<u64>)
    requires h == g.(milestones := h.milestones, openRequest := None, status := Extended, amendments := g.amendments + 1)
    requires ConfirmedCount(g.milestones) < |g.milestones|
    requires Postponed(g.milestones, h.milestones, ConfirmedCount(g.milestones), dates)
    ensures Changes(g, h, Extension(dates))
  {
  }

  /** A grant with a milestone to come is not closed. */
  lemma StaysOpen(h: Grant, c: nat)
    requires c < |h.milestones| && !h.milestones[c].confirmed && h.status != Terminated
    ensures CloseIfSettled(h) == h
  {
  }

  lemma TerminationChanges(g: Grant, bps: i128)
    requires GrantOk(g) && Refusal(g, Termination(bps)).None? && ConfirmedCount(g.milestones) < |g.milestones|
    ensures Changes(g, CloseIfSettled(Executed(g, Termination(bps)).0), Termination(bps))
  {
    TerminationMeaning(g, bps);
  }
}
