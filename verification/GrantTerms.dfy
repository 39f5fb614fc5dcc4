/**
 * One grant under the lifecycle rules: its milestones and what they add up
 * to, the changes that may be requested, and what executing a change does to
 * the schedule and to the money.
 */
module GrantTerms {
  import opened Bits
  import opened Results
  import WideMath

  const MAX_AMENDMENTS: nat := 8

  datatype Status =
    | Funded
    | AmendmentRequested
    | Amended
    | ExtensionRequested
    | Extended
    | TerminationRequested
    | Terminated
    | Closed

  datatype Milestone = Milestone(amount: i128, due: u64, confirmed: bool, claimed: bool)

  datatype Term = Term(amount: i128, due: u64)

  datatype Grant = Grant(
    recipient: nat,
    total: i128,
    milestones: seq<Milestone>,
    claimable: int,
    status: Status,
    openRequest: Option<nat>,
    pendingRefund: int,
    refunded: int,
    amendments: nat)

  datatype Change =
    | Amendment(newPending: seq<Term>)
    | Extension(newDueDates: seq<u64>)
    | Termination(earnedBps: i128)

  datatype GrantsError =
    | Unauthorized
    | GrantNotFound
    | RequestNotFound
    | InvalidState
    | InvalidTotalAmount
    | NoMilestones
    | MilestoneSumMismatch
    | InvalidMilestoneAmount
    | InvalidMilestoneIndex
    | MilestoneAlreadyConfirmed
    | MilestoneOutOfOrder
    | ReviewQuorumNotMet
    | NotRecipient
    | NothingToClaim
    | AmendmentAfterFinalMilestone
    | TooManyAmendments
    | InvalidSchedule
    | AmendmentExceedsAward
    | InvalidExtension
    | InvalidEarnedShare
    | NothingEscrowed
    | RequestAlreadyApproved
    | RequestNotApproved
    | StaleRequest
    | SelfReview
    | RefundInProgress
    | NothingToRefund
    | RefundFailed
    | ReviewerNotFound
    | ReviewerInactive
    | ReviewerConflicted
    | ReviewerNotAssigned
    | ReviewerAlreadyRegistered
    | ReviewerAlreadyAssigned
    | ReviewAlreadySubmitted
    | InvalidScore
    | ConflictNotFound
    | ConflictAlreadyDeclared

  // ---------------------------------------------------------------------
  // Sums over milestones
  // ---------------------------------------------------------------------

  /** Which milestones a sum is over. */
  datatype Which = Every | Unconfirmed | Unclaimed | Paid

  predicate Picks(w: Which, m: Milestone) {
    match w
    case Every => true
    case Unconfirmed => !m.confirmed
    case Unclaimed => m.confirmed && !m.claimed
    case Paid => m.confirmed && m.claimed
  }

  function Part(ms: seq<Milestone>, w: Which): int {
    if ms == [] then 0
    else
      var n := |ms| - 1;
      Part(ms[..n], w) + if Picks(w, ms[n]) then ms[n].amount else 0
  }

  predicate Positive(ms: seq<Milestone>) {
    forall i :: 0 <= i < |ms| ==> ms[i].amount > 0
  }

  predicate ClaimedOnlyConfirmed(ms: seq<Milestone>) {
    forall i :: 0 <= i < |ms| ==> ms[i].claimed ==> ms[i].confirmed
  }

  predicate InOrder(ms: seq<Milestone>) {
    forall i, j :: 0 <= i < j < |ms| && ms[j].confirmed ==> ms[i].confirmed
  }

  lemma {:induction false} PartConcat(ms: seq<Milestone>, ns: seq<Milestone>, w: Which)
    ensures Part(ms + ns, w) == Part(ms, w) + Part(ns, w)
  {
    if ns == [] {
      assert ms + ns == ms;
    } else {
      var n := |ns| - 1;
      assert (ms + ns)[..|ms + ns| - 1] == ms + ns[..n];
      PartConcat(ms, ns[..n], w);
    }
  }

  /** Every amount is in exactly one part. */
  lemma {:induction false} PartsAddUp(ms: seq<Milestone>)
    requires Positive(ms)
    ensures Part(ms, Every) == Part(ms, Unconfirmed) + Part(ms, Unclaimed) + Part(ms, Paid)
    ensures Part(ms, Unconfirmed) >= 0 && Part(ms, Unclaimed) >= 0 && Part(ms, Paid) >= 0
  {
    if ms != [] {
      PartsAddUp(ms[..|ms| - 1]);
    }
  }

  lemma {:induction false} PartUpdate(ms: seq<Milestone>, k: nat, m: Milestone, w: Which)
    requires k < |ms|
    ensures Part(ms[k := m], w) == Part(ms, w) - (if Picks(w, ms[k]) then ms[k].amount else 0)
                                 + (if Picks(w, m) then m.amount else 0)
  {
    var n := |ms| - 1;
    if k == n {
      assert ms[k := m][..n] == ms[..n];
    } else {
      assert ms[k := m][..n] == ms[..n][k := m];
      PartUpdate(ms[..n], k, m, w);
    }
  }

  /** A part is empty when it picks nothing, and everything when it picks all. */
  lemma {:induction false} PartUniform(ms: seq<Milestone>, w: Which)
    ensures (forall i :: 0 <= i < |ms| ==> !Picks(w, ms[i])) ==> Part(ms, w) == 0
    ensures (forall i :: 0 <= i < |ms| ==> Picks(w, ms[i])) ==> Part(ms, w) == Part(ms, Every)
    ensures Positive(ms) && (exists i :: 0 <= i < |ms| && Picks(w, ms[i])) ==> Part(ms, w) > 0
    ensures Positive(ms) ==> Part(ms, w) >= 0
  {
    if ms != [] {
      var n := |ms| - 1;
      PartUniform(ms[..n], w);
      if exists i :: 0 <= i < |ms| && Picks(w, ms[i]) {
        var i :| 0 <= i < |ms| && Picks(w, ms[i]);
        assert i < n ==> ms[..n][i] == ms[i];
      }
    }
  }

  // ---------------------------------------------------------------------
  // Views of the schedule
  // ---------------------------------------------------------------------

  function Schedule(ms: seq<Milestone>): (terms: seq<Term>)
    ensures |terms| == |ms|
  {
    seq(|ms|, i requires 0 <= i < |ms| => Term(ms[i].amount, ms[i].due))
  }

  /** The length of the confirmed front. */
  function ConfirmedCount(ms: seq<Milestone>): (n: nat)
    ensures n <= |ms|
  {
    if ms == [] || !ms[0].confirmed then 0 else 1 + ConfirmedCount(ms[1..])
  }

  /** With confirmations in order, the front is all of them. */
  lemma {:induction false} ConfirmedFront(ms: seq<Milestone>)
    ensures forall i :: 0 <= i < ConfirmedCount(ms) ==> ms[i].confirmed
    ensures ConfirmedCount(ms) < |ms| ==> !ms[ConfirmedCount(ms)].confirmed
    ensures InOrder(ms) ==> forall i :: ConfirmedCount(ms) <= i < |ms| ==> !ms[i].confirmed
  {
    if ms != [] && ms[0].confirmed {
      ConfirmedFront(ms[1..]);
      assert forall i :: 1 <= i < |ms| ==> ms[i] == ms[1..][i - 1];
      assert InOrder(ms) ==> InOrder(ms[1..]);
    }
  }

  predicate AllConfirmed(ms: seq<Milestone>) {
    forall i :: 0 <= i < |ms| ==> ms[i].confirmed
  }

  predicate NoneConfirmed(ms: seq<Milestone>) {
    forall i :: 0 <= i < |ms| ==> !ms[i].confirmed
  }

  /** A schedule in order is a confirmed front and an unconfirmed tail. */
  lemma FrontAndTail(ms: seq<Milestone>)
    requires InOrder(ms)
    ensures var c := ConfirmedCount(ms);
            AllConfirmed(ms[..c]) && NoneConfirmed(ms[c..])
  {
    var c := ConfirmedCount(ms);
    ConfirmedFront(ms);
    forall i | 0 <= i < c
      ensures ms[..c][i].confirmed
    {
      assert ms[..c][i] == ms[i];
    }
    forall i | 0 <= i < |ms| - c
      ensures !ms[c..][i].confirmed
    {
      assert ms[c..][i] == ms[c + i];
    }
  }

  function Pending(ms: seq<Milestone>): seq<Milestone> {
    if ms == [] then []
    else
      var n := |ms| - 1;
      Pending(ms[..n]) + if ms[n].confirmed then [] else [ms[n]]
  }

  lemma {:induction false} PendingConcat(ms: seq<Milestone>, ns: seq<Milestone>)
    requires AllConfirmed(ms) && NoneConfirmed(ns)
    ensures Pending(ms + ns) == ns
  {
    if ns != [] {
      var n := |ns| - 1;
      assert (ms + ns)[..|ms + ns| - 1] == ms + ns[..n];
      PendingConcat(ms, ns[..n]);
      assert ns == ns[..n] + [ns[n]];
    } else if ms != [] {
      var n := |ms| - 1;
      assert (ms + ns)[..n] == ms[..n] + ns;
      PendingConcat(ms[..n], ns);
    }
  }

  /** The pending milestones are what follows the confirmed front. */
  lemma PendingIsTail(ms: seq<Milestone>)
    requires InOrder(ms)
    ensures Pending(ms) == ms[ConfirmedCount(ms)..]
  {
    FrontAndTail(ms);
    PendingSplit(ms, ConfirmedCount(ms));
  }

  lemma PendingSplit(ms: seq<Milestone>, c: nat)
    requires c <= |ms| && AllConfirmed(ms[..c]) && NoneConfirmed(ms[c..])
    ensures Pending(ms) == ms[c..]
  {
    PendingConcat(ms[..c], ms[c..]);
    assert ms == ms[..c] + ms[c..];
  }

  function MaxU64(a: u64, b: u64): u64 {
    if a < b then b else a
  }

  /** The latest due date of a confirmed milestone, or 0. */
  function LastConfirmedDue(ms: seq<Milestone>): u64 {
    if ms == [] then 0
    else
      var n := |ms| - 1;
      if ms[n].confirmed then MaxU64(LastConfirmedDue(ms[..n]), ms[n].due) else LastConfirmedDue(ms[..n])
  }

  lemma {:induction false} LastConfirmedDueIsMax(ms: seq<Milestone>)
    ensures forall i :: 0 <= i < |ms| && ms[i].confirmed ==> ms[i].due <= LastConfirmedDue(ms)
    ensures LastConfirmedDue(ms) == 0 || exists i :: 0 <= i < |ms| && ms[i].confirmed && ms[i].due == LastConfirmedDue(ms)
  {
    if ms != [] {
      var n := |ms| - 1;
      LastConfirmedDueIsMax(ms[..n]);
      assert forall i :: 0 <= i < n ==> ms[..n][i] == ms[i];
    }
  }

  // ---------------------------------------------------------------------
  // Dates
  // ---------------------------------------------------------------------

  /** Deadlines never step back below an earlier one or the floor; 0, no deadline, may stand anywhere. */
  predicate DatesOrdered(floor: u64, dates: seq<u64>)
    decreases |dates|
  {
    dates == [] || ((dates[0] == 0 || dates[0] >= floor) && DatesOrdered(MaxU64(floor, dates[0]), dates[1..]))
  }

  lemma {:induction false} DatesOrderedMeaning(floor: u64, dates: seq<u64>)
    ensures DatesOrdered(floor, dates) <==>
              && (forall i :: 0 <= i < |dates| ==> dates[i] == 0 || dates[i] >= floor)
              && (forall i, j :: 0 <= i < j < |dates| ==> dates[j] == 0 || dates[i] <= dates[j])
    decreases |dates|
  {
    if dates != [] {
      var floor', rest := MaxU64(floor, dates[0]), dates[1..];
      DatesOrderedMeaning(floor', rest);
      assert forall i :: 1 <= i < |dates| ==> dates[i] == rest[i - 1];
      if DatesOrdered(floor, dates) {
        forall i, j | 0 <= i < j < |dates|
          ensures dates[j] == 0 || dates[i] <= dates[j]
        {
          assert dates[j] == rest[j - 1];
          assert i > 0 ==> dates[i] == rest[i - 1];
        }
      }
    }
  }

  method AreDatesOrdered(floor: u64, dates: seq<u64>) returns (r: bool)
    ensures r <==> DatesOrdered(floor, dates)
  {
    var prev := floor;
    assert dates[0..] == dates;
    for i := 0 to |dates|
      invariant DatesOrdered(floor, dates) <==> DatesOrdered(prev, dates[i..])
    {
      assert dates[i..][1..] == dates[i + 1..];
      if dates[i] != 0 && dates[i] < prev {
        return false;
      }
      prev := MaxU64(prev, dates[i]);
    }
    return true;
  }

  /** The non-zero due dates of a schedule are non-decreasing. */
  predicate Ordered(ms: seq<Milestone>) {
    forall i, j :: 0 <= i < j < |ms| ==> ms[j].due == 0 || ms[i].due <= ms[j].due
  }

  // ---------------------------------------------------------------------
  // Valid changes
  // ---------------------------------------------------------------------

  function Dates(terms: seq<Term>): (dates: seq<u64>)
    ensures |dates| == |terms|
  {
    seq(|terms|, i requires 0 <= i < |terms| => terms[i].due)
  }

  function TermSum(terms: seq<Term>): int {
    if terms == [] then 0 else TermSum(terms[..|terms| - 1]) + terms[|terms| - 1].amount
  }

  /** Adds new amounts up from the left; a bad one or an overflow decides the error. */
  function ScanTerms(acc: i128, terms: seq<Term>): Result<i128, GrantsError>
    decreases |terms|
  {
    if terms == [] then Ok(acc)
    else if terms[0].amount <= 0 then Err(InvalidMilestoneAmount)
    else if !FitsI128(acc + terms[0].amount) then Err(AmendmentExceedsAward)
    else ScanTerms(acc + terms[0].amount, terms[1..])
  }

  lemma {:induction false} TermSumConcat(a: seq<Term>, b: seq<Term>)
    ensures TermSum(a + b) == TermSum(a) + TermSum(b)
  {
    if b == [] {
      assert a + b == a;
    } else {
      var n := |b| - 1;
      assert (a + b)[..|a + b| - 1] == a + b[..n];
      TermSumConcat(a, b[..n]);
    }
  }

  lemma {:induction false} ScanMeaning(acc: i128, terms: seq<Term>)
    requires acc >= 0
    ensures ScanTerms(acc, terms).Ok? ==>
              && ScanTerms(acc, terms).value == acc + TermSum(terms)
              && forall i :: 0 <= i < |terms| ==> terms[i].amount > 0
    decreases |terms|
  {
    if terms != [] && terms[0].amount > 0 && FitsI128(acc + terms[0].amount) {
      ScanMeaning(acc + terms[0].amount, terms[1..]);
      assert terms == [terms[0]] + terms[1..];
      TermSumConcat([terms[0]], terms[1..]);
      assert forall i :: 1 <= i < |terms| ==> terms[i] == terms[1..][i - 1];
    }
  }

  /** No date moves earlier, and none appears where there was none. */
  predicate OnlyLater(pending: seq<Milestone>, dates: seq<u64>) {
    forall i :: 0 <= i < |pending| && i < |dates| ==>
      dates[i] >= pending[i].due && (pending[i].due == 0 ==> dates[i] == 0)
  }

  predicate SomeLater(pending: seq<Milestone>, dates: seq<u64>) {
    exists i :: 0 <= i < |pending| && i < |dates| && dates[i] > pending[i].due
  }

  /** What is still held for the grant: neither paid out nor refunded. */
  function Escrowed(g: Grant): int {
    g.total - Part(g.milestones, Paid) - g.refunded
  }

  /** Why a change is refused, if it is. */
  function Refusal(g: Grant, change: Change): Option<GrantsError> {
    var pending := Pending(g.milestones);
    var floor := LastConfirmedDue(g.milestones);
    match change
    case Amendment(terms) =>
      if pending == [] then Some(AmendmentAfterFinalMilestone)
      else if g.amendments >= MAX_AMENDMENTS then Some(TooManyAmendments)
      else if terms == [] then Some(InvalidSchedule)
      else
        var sum := ScanTerms(0, terms);
        if sum.Err? then Some(sum.error)
        else if sum.value > Part(g.milestones, Unconfirmed) then Some(AmendmentExceedsAward)
        else if !DatesOrdered(floor, Dates(terms)) then Some(InvalidSchedule)
        else None
    case Extension(dates) =>
      if pending == [] then Some(AmendmentAfterFinalMilestone)
      else if g.amendments >= MAX_AMENDMENTS then Some(TooManyAmendments)
      else if |dates| != |pending| || !OnlyLater(pending, dates) || !SomeLater(pending, dates)
              || !DatesOrdered(floor, dates) then Some(InvalidExtension)
      else None
    case Termination(bps) =>
      if !(0 <= bps <= WideMath.BPS_DENOM) then Some(InvalidEarnedShare)
      else if pending == [] || Escrowed(g) <= 0 then Some(NothingEscrowed)
      else None
  }

  // ---------------------------------------------------------------------
  // Executing a change
  // ---------------------------------------------------------------------

  function Fresh(terms: seq<Term>): (ms: seq<Milestone>)
    ensures |ms| == |terms|
  {
    seq(|terms|, i requires 0 <= i < |terms| => Milestone(terms[i].amount, terms[i].due, false, false))
  }

  function Redated(ms: seq<Milestone>, dates: seq<u64>): (r: seq<Milestone>)
    ensures |r| == |ms|
  {
    seq(|ms|, i requires 0 <= i < |ms| => if i < |dates| then ms[i].(due := dates[i]) else ms[i])
  }

  /** The floored share of the next milestone that counts as earned. */
  function Earned(amount: int, bps: int): int {
    amount * bps / WideMath.BPS_DENOM
  }

  lemma EarnedWithin(amount: int, bps: int)
    requires amount >= 0 && 0 <= bps <= WideMath.BPS_DENOM
    ensures 0 <= Earned(amount, bps) <= amount
  {
    MulMonotone(amount, 0, bps);
    MulMonotone(amount, bps, WideMath.BPS_DENOM);
  }

  /** The credited part of the next milestone, if it is worth anything. */
  function Partial(m: Milestone, bps: i128): seq<Milestone> {
    if m.amount <= 0 || !(0 <= bps <= WideMath.BPS_DENOM) then []
    else
      EarnedWithin(m.amount, bps);
      var earned := Earned(m.amount, bps);
      if earned > 0 then [Milestone(earned, m.due, true, false)] else []
  }

  /** The milestones after a change to the ones behind the confirmed front, and how much becomes refundable. */
  function Rescheduled(ms: seq<Milestone>, change: Change): (seq<Milestone>, int) {
    var c := ConfirmedCount(ms);
    match change
    case Amendment(terms) => (ms[..c] + Fresh(terms), Part(ms, Unconfirmed) - TermSum(terms))
    case Extension(dates) => (ms[..c] + Redated(ms[c..], dates), 0)
    case Termination(bps) =>
      if c == |ms| then (ms, 0)
      else
        var credited := Partial(ms[c], bps);
        (ms[..c] + credited, Part(ms[c..], Every) - Part(credited, Every))
  }

  /** The grant after a change, with its request closed. */
  function Executed(g: Grant, change: Change): (Grant, int) {
    var (ms, refund) := Rescheduled(g.milestones, change);
    var h := g.(milestones := ms, pendingRefund := g.pendingRefund + refund, openRequest := None);
    match change
    case Amendment(_) => (h.(status := Amended, amendments := g.amendments + 1), refund)
    case Extension(_) => (h.(status := Extended, amendments := g.amendments + 1), refund)
    case Termination(_) =>
      (h.(status := Terminated,
          claimable := g.claimable + Part(ms, Unclaimed) - Part(g.milestones, Unclaimed)), refund)
  }

  predicate AcceptsRequests(status: Status) {
    status == Funded || status == Amended || status == Extended
  }

  predicate AllPaid(ms: seq<Milestone>) {
    forall i :: 0 <= i < |ms| ==> ms[i].confirmed && ms[i].claimed
  }

  predicate Closable(g: Grant) {
    g.claimable == 0 && g.pendingRefund == 0
    && (g.status == Terminated || (AcceptsRequests(g.status) && AllPaid(g.milestones)))
  }

  function CloseIfSettled(g: Grant): Grant {
    if Closable(g) then g.(status := Closed) else g
  }

  // ---------------------------------------------------------------------
  // The invariant of a grant
  // ---------------------------------------------------------------------

  predicate IsConserved(g: Grant) {
    Part(g.milestones, Every) + g.pendingRefund + g.refunded == g.total
  }

  ghost predicate GrantOk(g: Grant) {
    && Positive(g.milestones) && ClaimedOnlyConfirmed(g.milestones) && InOrder(g.milestones)
    && IsConserved(g)
    && g.claimable == Part(g.milestones, Unclaimed)
    && g.pendingRefund >= 0 && g.refunded >= 0
    && g.amendments <= MAX_AMENDMENTS
    && (g.status == Terminated || g.status == Closed ==> Part(g.milestones, Unconfirmed) == 0)
    && (g.status == Closed ==> g.claimable == 0 && g.pendingRefund == 0)
  }

  /** Nothing the lifecycle computes for such a grant leaves i128, and nothing is lost: paid, refunded or still held. */
  lemma AmountsFit(g: Grant)
    requires GrantOk(g)
    ensures 0 <= Part(g.milestones, Unconfirmed) <= g.total <= I128_MAX
    ensures 0 <= g.claimable <= g.total && 0 <= g.pendingRefund <= g.total && 0 <= g.refunded <= g.total
    ensures Escrowed(g) == Part(g.milestones, Unconfirmed) + g.claimable + g.pendingRefund >= 0
    ensures Part(g.milestones, Paid) + g.refunded + Escrowed(g) == g.total
  {
    PartsAddUp(g.milestones);
  }

  /** The guard on escrowed funds never refuses by itself: a pending milestone is escrowed. */
  lemma EscrowGuardImplied(g: Grant)
    requires GrantOk(g) && Pending(g.milestones) != []
    ensures Escrowed(g) > 0
  {
    AmountsFit(g);
    PendingIsTail(g.milestones);
    ConfirmedFront(g.milestones);
    var c := ConfirmedCount(g.milestones);
    assert Picks(Unconfirmed, g.milestones[c]);
    PartUniform(g.milestones, Unconfirmed);
  }

  lemma FreshParts(terms: seq<Term>)
    ensures Part(Fresh(terms), Every) == Part(Fresh(terms), Unconfirmed) == TermSum(terms)
    ensures Part(Fresh(terms), Unclaimed) == 0
  {
    if terms != [] {
      var n := |terms| - 1;
      FreshParts(terms[..n]);
      assert Fresh(terms)[..n] == Fresh(terms[..n]);
    }
  }

  lemma {:induction false} RedatedParts(ms: seq<Milestone>, dates: seq<u64>, w: Which)
    requires |ms| == |dates|
    ensures Part(Redated(ms, dates), w) == Part(ms, w)
  {
    if ms != [] {
      var n := |ms| - 1;
      RedatedParts(ms[..n], dates[..n], w);
      assert Redated(ms, dates)[..n] == Redated(ms[..n], dates[..n]);
    }
  }

  lemma Rejoined(ms: seq<Milestone>, c: nat)
    requires c <= |ms|
    ensures forall w: Which :: Part(ms[..c] + ms[c..], w) == Part(ms, w)
  {
    assert ms == ms[..c] + ms[c..];
  }

  /** What a confirmed front and an unconfirmed tail add up to. */
  lemma FrontTailSums(front: seq<Milestone>, tail: seq<Milestone>)
    requires AllConfirmed(front) && NoneConfirmed(tail)
    ensures Part(front + tail, Every) == Part(front, Every) + Part(tail, Every)
    ensures Part(front + tail, Unclaimed) == Part(front, Unclaimed)
    ensures Part(front + tail, Unconfirmed) == Part(tail, Every)
  {
    PartConcat(front, tail, Every);
    PartConcat(front, tail, Unclaimed);
    PartConcat(front, tail, Unconfirmed);
    PartUniform(front, Unconfirmed);
    PartUniform(tail, Unconfirmed);
    PartUniform(tail, Unclaimed);
  }

  /** What a confirmed front and a credited remainder add up to. */
  lemma CreditedSums(front: seq<Milestone>, credited: seq<Milestone>)
    requires AllConfirmed(front) && forall i :: 0 <= i < |credited| ==> Picks(Unclaimed, credited[i])
    ensures Part(front + credited, Every) == Part(front, Every) + Part(credited, Every)
    ensures Part(front + credited, Unclaimed) == Part(front, Unclaimed) + Part(credited, Every)
    ensures Part(front + credited, Unconfirmed) == 0
  {
    PartConcat(front, credited, Every);
    PartConcat(front, credited, Unclaimed);
    PartUniform(credited, Unclaimed);
    PartUniform(front + credited, Unconfirmed);
  }

  lemma AmendmentSums(ms: seq<Milestone>, terms: seq<Term>)
    requires InOrder(ms)
    ensures var (ns, refund) := Rescheduled(ms, Amendment(terms));
            && Part(ns, Every) + refund == Part(ms, Every)
            && Part(ns, Unclaimed) == Part(ms, Unclaimed)
            && Part(ns, Unconfirmed) == TermSum(terms) == Part(ms, Unconfirmed) - refund
  {
    FrontAndTail(ms);
    AmendedParts(ms, ConfirmedCount(ms), terms);
  }

  lemma AmendedParts(ms: seq<Milestone>, c: nat, terms: seq<Term>)
    requires c <= |ms| && AllConfirmed(ms[..c]) && NoneConfirmed(ms[c..])
    ensures var ns := ms[..c] + Fresh(terms);
            && Part(ns, Every) == Part(ms, Every) - Part(ms, Unconfirmed) + TermSum(terms)
            && Part(ns, Unclaimed) == Part(ms, Unclaimed)
            && Part(ns, Unconfirmed) == TermSum(terms)
  {
    Rejoined(ms, c);
    FrontTailSums(ms[..c], ms[c..]);
    FrontTailSums(ms[..c], Fresh(terms));
    FreshParts(terms);
  }

  lemma ExtensionSums(ms: seq<Milestone>, dates: seq<u64>)
    requires InOrder(ms) && |dates| == |ms| - ConfirmedCount(ms)
    ensures var (ns, refund) := Rescheduled(ms, Extension(dates));
            && Part(ns, Every) == Part(ms, Every) && refund == 0
            && Part(ns, Unclaimed) == Part(ms, Unclaimed)
  {
    FrontAndTail(ms);
    ExtendedParts(ms, ConfirmedCount(ms), dates);
  }

  lemma ExtendedParts(ms: seq<Milestone>, c: nat, dates: seq<u64>)
    requires c <= |ms| && AllConfirmed(ms[..c]) && NoneConfirmed(ms[c..]) && |dates| == |ms| - c
    ensures var ns := ms[..c] + Redated(ms[c..], dates);
            Part(ns, Every) == Part(ms, Every) && Part(ns, Unclaimed) == Part(ms, Unclaimed)
  {
    Rejoined(ms, c);
    FrontTailSums(ms[..c], ms[c..]);
    StillUnconfirmed(ms[c..], dates);
    FrontTailSums(ms[..c], Redated(ms[c..], dates));
    RedatedParts(ms[c..], dates, Every);
  }

  lemma StillUnconfirmed(ms: seq<Milestone>, dates: seq<u64>)
    requires NoneConfirmed(ms)
    ensures NoneConfirmed(Redated(ms, dates))
  {
  }

  lemma TerminationSums(ms: seq<Milestone>, bps: i128)
    requires Positive(ms) && InOrder(ms) && ConfirmedCount(ms) < |ms| && 0 <= bps <= WideMath.BPS_DENOM
    ensures var (ns, refund) := Rescheduled(ms, Termination(bps));
            var earned := Earned(ms[ConfirmedCount(ms)].amount, bps);
            && Part(ns, Every) + refund == Part(ms, Every)
            && 0 <= refund == Part(ms, Unconfirmed) - earned
            && Part(ns, Unclaimed) == Part(ms, Unclaimed) + earned
            && Part(ns, Unconfirmed) == 0
  {
    var c := ConfirmedCount(ms);
    FrontAndTail(ms);
    PartialWorth(ms[c], bps);
    TerminatedParts(ms, c, Partial(ms[c], bps), Earned(ms[c].amount, bps));
  }

  lemma TerminatedParts(ms: seq<Milestone>, c: nat, credited: seq<Milestone>, earned: int)
    requires c < |ms| && AllConfirmed(ms[..c]) && NoneConfirmed(ms[c..]) && Positive(ms)
    requires (forall i :: 0 <= i < |credited| ==> Picks(Unclaimed, credited[i]))
    requires Part(credited, Every) == earned <= ms[c].amount
    ensures var ns := ms[..c] + credited;
            var refund := Part(ms[c..], Every) - Part(credited, Every);
            && Part(ns, Every) + refund == Part(ms, Every)
            && 0 <= refund == Part(ms, Unconfirmed) - earned
            && Part(ns, Unclaimed) == Part(ms, Unclaimed) + earned
            && Part(ns, Unconfirmed) == 0
  {
    Rejoined(ms, c);
    TailReplaced(ms[..c], ms[c..], credited, earned);
  }

  /** Crediting part of an unconfirmed tail, and dropping the rest of it. */
  lemma TailReplaced(front: seq<Milestone>, tail: seq<Milestone>, credited: seq<Milestone>, earned: int)
    requires AllConfirmed(front) && NoneConfirmed(tail) && Positive(tail)
    requires (forall i :: 0 <= i < |credited| ==> Picks(Unclaimed, credited[i])) && Part(credited, Every) == earned
    requires tail != [] && earned <= tail[0].amount
    ensures var refund := Part(tail, Every) - Part(credited, Every);
            && Part(front + credited, Every) + refund == Part(front + tail, Every)
            && 0 <= refund == Part(front + tail, Unconfirmed) - earned
    ensures Part(front + credited, Unclaimed) == Part(front + tail, Unclaimed) + earned
    ensures Part(front + credited, Unconfirmed) == 0
  {
    FrontTailSums(front, tail);
    CreditedSums(front, credited);
    TailCovers(tail, 0);
    assert tail[0..] == tail;
  }

  /** A tail is worth at least its first milestone. */
  lemma TailCovers(ms: seq<Milestone>, c: nat)
    requires Positive(ms) && c < |ms|
    ensures Part(ms[c..], Every) >= ms[c].amount
  {
    PartConcat([ms[c]], ms[c + 1..], Every);
    assert ms[c..] == [ms[c]] + ms[c + 1..];
    assert [ms[c]][..0] == [];
    PartUniform(ms[c + 1..], Every);
  }

  /** The credited part is one confirmed and unclaimed milestone worth what was earned, or nothing. */
  lemma PartialWorth(m: Milestone, bps: i128)
    requires m.amount > 0 && 0 <= bps <= WideMath.BPS_DENOM
    ensures var credited := Partial(m, bps);
            && Positive(credited) && TailOk(credited)
            && (forall i :: 0 <= i < |credited| ==> Picks(Unclaimed, credited[i]))
            && Part(credited, Every) == Earned(m.amount, bps) <= m.amount
  {
    EarnedWithin(m.amount, bps);
  }

  /** What a change that is not refused may rely on. */
  predicate Allowed(ms: seq<Milestone>, change: Change) {
    var c := ConfirmedCount(ms);
    var floor := LastConfirmedDue(ms);
    && c < |ms|
    && match change
       case Amendment(terms) =>
         && (forall i :: 0 <= i < |terms| ==> terms[i].amount > 0)
         && TermSum(terms) <= Part(ms, Unconfirmed) && DatesOrdered(floor, Dates(terms))
       case Extension(dates) =>
         |dates| == |ms| - c && OnlyLater(ms[c..], dates) && DatesOrdered(floor, dates)
       case Termination(bps) => 0 <= bps <= WideMath.BPS_DENOM
  }

  lemma NotRefused(g: Grant, change: Change)
    requires InOrder(g.milestones) && Refusal(g, change).None?
    ensures Allowed(g.milestones, change)
  {
    PendingIsTail(g.milestones);
    if change.Amendment? {
      ScanMeaning(0, change.newPending);
    }
  }

  /** A change leaves the confirmed front alone, and the shape of a schedule intact. */
  lemma RescheduledShape(ms: seq<Milestone>, change: Change)
    requires Positive(ms) && ClaimedOnlyConfirmed(ms) && InOrder(ms) && Allowed(ms, change)
    ensures var ns := Rescheduled(ms, change).0;
            var c := ConfirmedCount(ms);
            && Positive(ns) && ClaimedOnlyConfirmed(ns) && InOrder(ns)
            && c <= |ns| && ns[..c] == ms[..c]
  {
    var c := ConfirmedCount(ms);
    FrontAndTail(ms);
    match change {
      case Amendment(terms) =>
        ShapeConcat(ms[..c], Fresh(terms));
      case Extension(dates) =>
        RedatedShape(ms[c..], dates);
        ShapeConcat(ms[..c], Redated(ms[c..], dates));
      case Termination(bps) =>
        PartialWorth(ms[c], bps);
        ShapeConcat(ms[..c], Partial(ms[c], bps));
    }
  }

  lemma RedatedShape(ms: seq<Milestone>, dates: seq<u64>)
    requires Positive(ms) && ClaimedOnlyConfirmed(ms) && NoneConfirmed(ms)
    ensures Positive(Redated(ms, dates)) && TailOk(Redated(ms, dates))
  {
  }

  /** All pending, or one credited milestone; nothing claimed. */
  predicate TailOk(tail: seq<Milestone>) {
    forall i :: 0 <= i < |tail| ==> !tail[i].claimed && (tail[i].confirmed ==> |tail| == 1)
  }

  lemma ShapeConcat(front: seq<Milestone>, tail: seq<Milestone>)
    requires Positive(front) && Positive(tail) && AllConfirmed(front) && TailOk(tail)
    ensures var ms := front + tail;
            Positive(ms) && ClaimedOnlyConfirmed(ms) && InOrder(ms) && ms[..|front|] == front
  {
  }

  /** Executing a change keeps the grant's invariant and its award, and never refunds a negative amount. */
  lemma ExecutedKeeps(g: Grant, change: Change)
    requires GrantOk(g) && Refusal(g, change).None?
    ensures var (h, refund) := Executed(g, change);
            && GrantOk(h) && refund >= 0 && h.pendingRefund == g.pendingRefund + refund
            && h.total == g.total && h.recipient == g.recipient && h.refunded == g.refunded
  {
    NotRefused(g, change);
    RescheduledShape(g.milestones, change);
    match change {
      case Amendment(terms) => AmendmentSums(g.milestones, terms);
      case Extension(dates) => ExtensionSums(g.milestones, dates);
      case Termination(bps) => TerminationSums(g.milestones, bps);
    }
  }

  /** Ordered deadlines stay ordered under every valid change. */
  lemma RescheduledOrdered(ms: seq<Milestone>, change: Change)
    requires Ordered(ms) && Allowed(ms, change)
    ensures Ordered(Rescheduled(ms, change).0)
  {
    var c := ConfirmedCount(ms);
    FrontFloor(ms);
    match change {
      case Amendment(terms) => OrderedConcat(ms[..c], Fresh(terms), LastConfirmedDue(ms), Dates(terms));
      case Extension(dates) => OrderedConcat(ms[..c], Redated(ms[c..], dates), LastConfirmedDue(ms), dates);
      case Termination(bps) => OrderedCredit(ms, c, Partial(ms[c], bps));
    }
  }

  lemma FrontFloor(ms: seq<Milestone>)
    requires Ordered(ms)
    ensures var c := ConfirmedCount(ms);
            Ordered(ms[..c]) && forall i :: 0 <= i < c ==> ms[..c][i].due <= LastConfirmedDue(ms)
  {
    ConfirmedFront(ms);
    LastConfirmedDueIsMax(ms);
  }

  lemma OrderedCredit(ms: seq<Milestone>, c: nat, credited: seq<Milestone>)
    requires Ordered(ms) && c < |ms| && |credited| <= 1 && (credited != [] ==> credited[0].due == ms[c].due)
    ensures Ordered(ms[..c] + credited)
  {
  }

  lemma OrderedConcat(front: seq<Milestone>, tail: seq<Milestone>, floor: u64, dates: seq<u64>)
    requires Ordered(front) && (forall i :: 0 <= i < |front| ==> front[i].due <= floor)
    requires DatesOrdered(floor, dates) && |dates| == |tail|
    requires forall i :: 0 <= i < |tail| ==> tail[i].due == dates[i]
    ensures Ordered(front + tail)
  {
    DatesOrderedMeaning(floor, dates);
  }

  /** An amendment pays no more than before, and what it no longer pays becomes refundable. */
  lemma AmendmentMeaning(g: Grant, terms: seq<Term>)
    requires GrantOk(g) && Refusal(g, Amendment(terms)).None?
    ensures var c := ConfirmedCount(g.milestones);
            var (h, refund) := Executed(g, Amendment(terms));
            && h.milestones == g.milestones[..c] + Fresh(terms) && h.claimable == g.claimable && refund >= 0
            && Part(h.milestones, Unconfirmed) + refund == Part(g.milestones, Unconfirmed)
  {
    NotRefused(g, Amendment(terms));
    AmendmentSums(g.milestones, terms);
  }

  /** From position `c` on, each deadline is the next date, none earlier than it was; all else is as it was. */
  predicate Postponed(ms: seq<Milestone>, ns: seq<Milestone>, c: nat, dates: seq<u64>) {
    && c <= |ms| == |ns| == c + |dates| && ns[..c] == ms[..c]
    && forall k :: 0 <= k < |dates| ==>
         && ns[c + k] == ms[c + k].(due := dates[k])
         && dates[k] >= ms[c + k].due && (ms[c + k].due == 0 ==> dates[k] == 0)
  }

  /** An extension gives each pending milestone the date filed for it, never an earlier one, and changes nothing else. */
  lemma ExtensionMeaning(g: Grant, dates: seq<u64>)
    requires GrantOk(g) && Refusal(g, Extension(dates)).None?
    ensures var (h, refund) := Executed(g, Extension(dates));
            && refund == 0 && |h.milestones| == |g.milestones| && h.claimable == g.claimable
            && Postponed(g.milestones, h.milestones, ConfirmedCount(g.milestones), dates)
  {
    NotRefused(g, Extension(dates));
    RedatedPointwise(g.milestones, ConfirmedCount(g.milestones), dates);
  }

  /** A termination credits the floored share of the next milestone, and all else unconfirmed becomes refundable. */
  lemma TerminationMeaning(g: Grant, bps: i128)
    requires GrantOk(g) && Refusal(g, Termination(bps)).None?
    ensures var c := ConfirmedCount(g.milestones);
            var (h, refund) := Executed(g, Termination(bps));
            && c < |g.milestones|
            && h.claimable == g.claimable + Earned(g.milestones[c].amount, bps)
            && refund == Part(g.milestones, Unconfirmed) - Earned(g.milestones[c].amount, bps)
            && Part(h.milestones, Unconfirmed) == 0
  {
    NotRefused(g, Termination(bps));
    TerminationSums(g.milestones, bps);
  }

  lemma RedatedPointwise(ms: seq<Milestone>, c: nat, dates: seq<u64>)
    requires c <= |ms| && |dates| == |ms| - c && OnlyLater(ms[c..], dates)
    ensures var ns := ms[..c] + Redated(ms[c..], dates);
            Postponed(ms, ns, c, dates)
  {
    forall k | 0 <= k < |dates|
      ensures dates[k] >= ms[c + k].due && (ms[c + k].due == 0 ==> dates[k] == 0)
    {
      assert ms[c..][k] == ms[c + k];
    }
  }
}
