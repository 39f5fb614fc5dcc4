/**
 * Payouts that do not revert when the token refuses them, and the ledger of
 * the ones that failed. The token's answer to each attempt is a parameter.
 */
module Payout {
  import opened Results
  import opened Sums

  const RECLAIM_TIMEOUT_SECS: u64 := 30 * 24 * 60 * 60
  const MAX_LIST_LIMIT: nat := 50
  const U32_MAX: nat := 0xffff_ffff

  datatype Outcome = Success | Frozen | Blocked | MissingTrustline | InsufficientBalance | Unauthorized

  datatype Status = Pending | Paid | Failed | Reclaimed

  datatype Record = Record(
    id: u64,
    token: nat,
    recipient: nat,
    amount: i128,
    status: Status,
    reason: Outcome,
    attempts: nat,
    firstFailedAt: u64,
    lastAttemptAt: u64,
    context: u64)

  datatype PayoutError = NotFound | NotFailed | ReclaimTooEarly | SameRecipient | Trapped

  datatype State = State(nextId: u64, records: map<nat, Record>, liability: map<nat, i128>)

  datatype Op =
    | Pay(token: nat, recipient: nat, amount: i128, context: u64, answer: Outcome)
    | Retry(id: u64, answer: Outcome)
    | Redirect(id: u64, recipient: nat)
    | Reclaim(id: u64)

  datatype Reply =
    | Attempted(outcome: Outcome, id: Option<u64>)
    | Updated(record: Record)

  datatype Call = Call(op: Op, now: u64)

  // ---------------------------------------------------------------------
  // Transitions
  // ---------------------------------------------------------------------

  /** A non-positive amount succeeds without asking the token. */
  function TryTransfer(amount: i128, answer: Outcome): Outcome {
    if amount <= 0 then Success else answer
  }

  function Liability(s: State, token: nat): i128 {
    if token in s.liability then s.liability[token] else 0
  }

  function AddLiability(s: State, token: nat, amount: i128): State {
    s.(liability := s.liability[token := SaturatingI128(Liability(s, token) + amount)])
  }

  function SubLiability(s: State, token: nat, amount: i128): State {
    var next := SaturatingI128(Liability(s, token) - amount);
    s.(liability := s.liability[token := if next < 0 then 0 else next])
  }

  function Store(s: State, record: Record): State {
    s.(records := s.records[record.id := record])
  }

  function IsFailed(s: State, id: nat): bool {
    id in s.records && s.records[id].status.Failed?
  }

  function Lookup(s: State, id: u64): Result<Record, PayoutError> {
    if id !in s.records then Err(NotFound)
    else if !s.records[id].status.Failed? then Err(NotFailed)
    else Ok(s.records[id])
  }

  function DoPay(s: State, token: nat, recipient: nat, amount: i128, context: u64, answer: Outcome, now: u64)
    : (State, Result<Reply, PayoutError>)
  {
    var outcome := TryTransfer(amount, answer);
    if outcome.Success? then (s, Ok(Attempted(Success, None)))
    else if s.nextId == U64_MAX then (s, Err(Trapped))
    else
      var record := Record(s.nextId, token, recipient, amount, Failed, outcome, 1, now, now, context);
      (AddLiability(Store(s.(nextId := s.nextId + 1), record), token, amount),
       Ok(Attempted(outcome, Some(s.nextId))))
  }

  function DoRetry(s: State, id: u64, answer: Outcome, now: u64): (State, Result<Reply, PayoutError>) {
    var found := Lookup(s, id);
    if found.Err? then (s, Err(found.error))
    else
      var outcome := TryTransfer(found.value.amount, answer);
      var tried := found.value.(attempts := if found.value.attempts < U32_MAX then found.value.attempts + 1
                                            else found.value.attempts,
                                lastAttemptAt := now);
      if outcome.Success? then
        (SubLiability(Store(s, tried.(status := Paid)), tried.token, tried.amount), Ok(Attempted(Success, None)))
      else
        (Store(s, tried.(reason := outcome)), Ok(Attempted(outcome, None)))
  }

  function DoRedirect(s: State, id: u64, recipient: nat): (State, Result<Reply, PayoutError>) {
    var found := Lookup(s, id);
    if found.Err? then (s, Err(found.error))
    else if found.value.recipient == recipient then (s, Err(SameRecipient))
    else
      var record := found.value.(recipient := recipient);
      (Store(s, record), Ok(Updated(record)))
  }

  function DoReclaim(s: State, id: u64, now: u64): (State, Result<Reply, PayoutError>) {
    var found := Lookup(s, id);
    if found.Err? then (s, Err(found.error))
    else if now < SaturatingAddU64(found.value.firstFailedAt, RECLAIM_TIMEOUT_SECS) then (s, Err(ReclaimTooEarly))
    else
      var record := found.value.(status := Reclaimed);
      (SubLiability(Store(s, record), record.token, record.amount), Ok(Updated(record)))
  }

  function Step(s: State, call: Call): (State, Result<Reply, PayoutError>) {
    match call.op
    case Pay(token, recipient, amount, context, answer) =>
      DoPay(s, token, recipient, amount, context, answer, call.now)
    case Retry(id, answer) => DoRetry(s, id, answer, call.now)
    case Redirect(id, recipient) => DoRedirect(s, id, recipient)
    case Reclaim(id) => DoReclaim(s, id, call.now)
  }

  function Run(s: State, calls: seq<Call>): State {
    if calls == [] then s
    else Step(Run(s, calls[..|calls| - 1]), calls[|calls| - 1]).0
  }

  const EMPTY: State := State(0, map[], map[])

  // ---------------------------------------------------------------------
  // The liability against the records
  // ---------------------------------------------------------------------

  ghost predicate Inv(s: State) {
    forall id :: id in s.records ==> id < s.nextId && s.records[id].id == id && s.records[id].amount > 0
  }

  /** What a record still ties up in a token. */
  function Tied(record: Record, token: nat): int {
    if record.status.Failed? && record.token == token then record.amount else 0
  }

  function TiedUp(s: State, token: nat): map<nat, int> {
    map id | id in s.records :: Tied(s.records[id], token)
  }

  /** The sum of the Failed amounts of a token. */
  ghost function Owed(s: State, token: nat): int {
    MapSum(TiedUp(s, token))
  }

  lemma StoreOwed(s: State, record: Record, token: nat)
    ensures Owed(Store(s, record), token)
         == Owed(s, token) - (if record.id in s.records then Tied(s.records[record.id], token) else 0)
          + Tied(record, token)
  {
    var k: nat := record.id;
    MapSumUpdate(TiedUp(s, token), k, Tied(record, token));
    assert TiedUp(Store(s, record), token) == TiedUp(s, token)[record.id := Tied(record, token)];
  }

  lemma TiedWithinOwed(s: State, token: nat, id: nat)
    requires Inv(s) && id in s.records
    ensures 0 <= Tied(s.records[id], token) <= Owed(s, token)
  {
    MapSumNonNegative(TiedUp(s, token));
    assert TiedUp(s, token)[id] <= Owed(s, token);
  }

  /** The earmark the ledger is meant to keep. */
  ghost predicate Tracks(s: State) {
    forall token :: Liability(s, token) == Owed(s, token)
  }

  /** A call does not push a liability past what an i128 holds. */
  predicate Headroom(s: State, call: Call) {
    call.op.Pay? && Step(s, call).0 != s ==> Liability(s, call.op.token) + call.op.amount <= I128_MAX
  }

  lemma StepKeepsInv(s: State, call: Call)
    requires Inv(s)
    ensures Inv(Step(s, call).0)
  {
  }

  /** In a tracking state no release ever reaches the clamp at zero. */
  lemma ClampIdle(s: State, id: u64)
    requires Inv(s) && Tracks(s) && IsFailed(s, id)
    ensures var r := s.records[id];
            0 <= Liability(s, r.token) - r.amount
            && Liability(SubLiability(s, r.token, r.amount), r.token) == Liability(s, r.token) - r.amount
  {
    TiedWithinOwed(s, s.records[id].token, id);
  }

  lemma StoreOnlyTracks(s: State, record: Record)
    requires Tracks(s)
    requires record.id in s.records && forall token :: Tied(record, token) == Tied(s.records[record.id], token)
    ensures Tracks(Store(s, record))
  {
    forall token
      ensures Liability(Store(s, record), token) == Owed(Store(s, record), token)
    {
      StoreOwed(s, record, token);
    }
  }

  lemma SettleTracks(s: State, record: Record)
    requires Inv(s) && Tracks(s) && IsFailed(s, record.id) && !record.status.Failed?
    requires record.token == s.records[record.id].token && record.amount == s.records[record.id].amount
    ensures Tracks(SubLiability(Store(s, record), record.token, record.amount))
  {
    ClampIdle(s, record.id);
    var t := SubLiability(Store(s, record), record.token, record.amount);
    forall token
      ensures Liability(t, token) == Owed(t, token)
    {
      StoreOwed(s, record, token);
      assert TiedUp(t, token) == TiedUp(Store(s, record), token);
    }
  }

  lemma RecordTracks(s: State, record: Record)
    requires Inv(s) && Tracks(s) && record.id !in s.records && record.status.Failed? && record.amount > 0
    ensures var t := AddLiability(Store(s.(nextId := SaturatingAddU64(s.nextId, 1)), record), record.token, record.amount);
            Tracks(t) <==> Liability(s, record.token) + record.amount <= I128_MAX
  {
    var u := s.(nextId := SaturatingAddU64(s.nextId, 1));
    var t := AddLiability(Store(u, record), record.token, record.amount);
    forall token
      ensures Owed(t, token) == Owed(s, token) + Tied(record, token)
    {
      assert TiedUp(u, token) == TiedUp(s, token);
      assert TiedUp(t, token) == TiedUp(Store(u, record), token);
      StoreOwed(u, record, token);
    }
    assert Liability(t, record.token) == SaturatingI128(Liability(s, record.token) + record.amount);
    assert Owed(t, record.token) == Liability(s, record.token) + record.amount;
  }

  /** One call keeps the liability equal to the Failed amounts exactly when it has headroom. */
  lemma StepTracks(s: State, call: Call)
    requires Inv(s) && Tracks(s)
    ensures Tracks(Step(s, call).0) <==> Headroom(s, call)
  {
    var (t, r) := Step(s, call);
    if t != s {
      match call.op {
        case Pay(token, recipient, amount, context, answer) =>
          RecordTracks(s, t.records[s.nextId]);
        case Retry(id, answer) =>
          if t.records[id].status.Paid? {
            SettleTracks(s, t.records[id]);
          } else {
            StoreOnlyTracks(s, t.records[id]);
          }
        case Redirect(id, recipient) =>
          StoreOnlyTracks(s, t.records[id]);
        case Reclaim(id) =>
          SettleTracks(s, t.records[id]);
      }
    }
  }

  lemma {:induction false} RunKeepsInv(calls: seq<Call>)
    ensures Inv(Run(EMPTY, calls))
  {
    if calls != [] {
      var n := |calls| - 1;
      RunKeepsInv(calls[..n]);
      StepKeepsInv(Run(EMPTY, calls[..n]), calls[n]);
    }
  }

  /** The liability is exact now and was after every call before. */
  ghost predicate TracksThroughout(calls: seq<Call>) {
    Tracks(Run(EMPTY, calls)) && (calls != [] ==> TracksThroughout(calls[..|calls| - 1]))
  }

  /** Every call had headroom when it was made. */
  ghost predicate HeadroomThroughout(calls: seq<Call>) {
    calls != [] ==>
      var n := |calls| - 1;
      HeadroomThroughout(calls[..n]) && Headroom(Run(EMPTY, calls[..n]), calls[n])
  }

  /**
   * Over any run, the liability of every token equals the sum of its Failed
   * records at every moment if and only if no failed payout was recorded that
   * took its token's liability past the largest i128.
   */
  lemma {:induction false} LiabilityExact(calls: seq<Call>)
    ensures TracksThroughout(calls) <==> HeadroomThroughout(calls)
  {
    if calls == [] {
      EmptyTracks();
    } else {
      var n := |calls| - 1;
      LiabilityExact(calls[..n]);
      RunKeepsInv(calls[..n]);
      if TracksThroughout(calls[..n]) {
        StepTracks(Run(EMPTY, calls[..n]), calls[n]);
      }
    }
  }

  lemma EmptyTracks()
    ensures Tracks(EMPTY)
  {
    forall token
      ensures Owed(EMPTY, token) == 0
    {
      assert TiedUp(EMPTY, token) == map[];
    }
  }

  /**
   * Why the condition is needed: two refused payouts of the largest amount,
   * one of them paid later, leave a Failed record with nothing earmarked.
   */
  lemma SaturationLosesEarmark(token: nat, a: nat, b: nat, now: u64)
    ensures var calls := [Call(Pay(token, a, I128_MAX, 0, InsufficientBalance), now),
                          Call(Pay(token, b, I128_MAX, 0, InsufficientBalance), now),
                          Call(Retry(0, Success), now)];
            var s := Run(EMPTY, calls);
            IsFailed(s, 1) && s.records[1].amount == I128_MAX && Liability(s, token) == 0
  {
    var calls := [Call(Pay(token, a, I128_MAX, 0, InsufficientBalance), now),
                  Call(Pay(token, b, I128_MAX, 0, InsufficientBalance), now),
                  Call(Retry(0, Success), now)];
    var s1 := Step(EMPTY, calls[0]).0;
    RunSnoc(EMPTY, [], calls[0]);
    var s2 := Step(s1, calls[1]).0;
    RunSnoc(EMPTY, [calls[0]], calls[1]);
    RunSnoc(EMPTY, [calls[0], calls[1]], calls[2]);
    assert calls == [calls[0], calls[1]] + [calls[2]];
    assert Liability(s1, token) == I128_MAX;
    assert Liability(s2, token) == I128_MAX;
  }

  lemma RunSnoc(s: State, calls: seq<Call>, call: Call)
    ensures Run(s, calls + [call]) == Step(Run(s, calls), call).0
  {
    assert (calls + [call])[..|calls|] == calls;
  }

  // ---------------------------------------------------------------------
  // Records over time
  // ---------------------------------------------------------------------

  /** What may ever change in a record: nothing once it is settled, and never what is owed or since when. */
  predicate Evolves(a: Record, b: Record) {
    && b == a.(recipient := b.recipient, status := b.status, reason := b.reason, attempts := b.attempts,
               lastAttemptAt := b.lastAttemptAt)
    && a.attempts <= b.attempts
    && (!a.status.Failed? ==> b == a)
    && (b.status == a.status || b.status.Paid? || b.status.Reclaimed?)
  }

  /** Every record outlives every run, leaves Failed at most once, and only a redirection changes its recipient. */
  lemma {:induction false} RunEvolves(s: State, calls: seq<Call>, id: nat)
    requires Inv(s) && id in s.records
    ensures var t := Run(s, calls);
            && Inv(t) && id in t.records && Evolves(s.records[id], t.records[id])
            && (t.records[id].recipient != s.records[id].recipient ==>
                  exists k :: 0 <= k < |calls| && calls[k].op.Redirect? && calls[k].op.id == id)
  {
    if calls != [] {
      var n := |calls| - 1;
      RunEvolves(s, calls[..n], id);
      StepKeepsInv(Run(s, calls[..n]), calls[n]);
      StepEvolves(Run(s, calls[..n]), calls[n], id);
    }
  }

  lemma StepEvolves(s: State, call: Call, id: nat)
    requires Inv(s) && id in s.records
    ensures var t := Step(s, call).0;
            && id in t.records && Evolves(s.records[id], t.records[id])
            && (t.records[id].recipient != s.records[id].recipient ==> call.op.Redirect? && call.op.id == id)
  {
  }

  /** How often a payout was tried again, refused or not. */
  function Retries(s: State, calls: seq<Call>, id: nat): nat {
    if calls == [] then 0
    else
      var n := |calls| - 1;
      Retries(s, calls[..n], id)
      + if calls[n].op.Retry? && calls[n].op.id == id && IsFailed(Run(s, calls[..n]), id) then 1 else 0
  }

  /** A record counts its attempts, up to the largest u32. */
  lemma {:induction false} AttemptsCounted(s: State, calls: seq<Call>, id: nat)
    requires Inv(s) && id in s.records && s.records[id].attempts <= U32_MAX
    ensures var t := Run(s, calls);
            && id in t.records
            && t.records[id].attempts == (if s.records[id].attempts + Retries(s, calls, id) > U32_MAX then U32_MAX
                                          else s.records[id].attempts + Retries(s, calls, id))
  {
    if calls != [] {
      var n := |calls| - 1;
      AttemptsCounted(s, calls[..n], id);
      RunEvolves(s, calls[..n], id);
      StepAttempts(Run(s, calls[..n]), calls[n], id);
    }
  }

  lemma StepAttempts(s: State, call: Call, id: nat)
    requires Inv(s) && id in s.records
    ensures var t := Step(s, call).0;
            && id in t.records
            && t.records[id].attempts
               == s.records[id].attempts
                  + if call.op.Retry? && call.op.id == id && IsFailed(s, id) && s.records[id].attempts < U32_MAX then 1
                    else 0
  {
  }

  /** A failed payout can be reclaimed no sooner than thirty days after it failed, retried or not in between. */
  lemma ReclaimWaits(s: State, pay: Call, between: seq<Call>, reclaim: Call)
    requires Inv(s) && pay.op.Pay? && Step(s, pay).0 != s
    requires reclaim.op == Reclaim(s.nextId)
    ensures var t := Run(Step(s, pay).0, between);
            Step(t, reclaim).1.Ok? <==>
              && IsFailed(t, s.nextId)
              && (reclaim.now >= pay.now + RECLAIM_TIMEOUT_SECS || reclaim.now == U64_MAX)
  {
    StepKeepsInv(s, pay);
    RunEvolves(Step(s, pay).0, between, s.nextId);
  }

  /** What one call asked to be paid in a token, what the token actually moved, and what was released unpaid. */
  datatype Flow = Flow(asked: int, sent: int, released: int)

  function FlowOf(s: State, call: Call, token: nat): Flow {
    var r := Step(s, call).1;
    if r.Err? then Flow(0, 0, 0)
    else
      match call.op
      case Pay(t, _, amount, _, _) =>
        if t != token || amount <= 0 then Flow(0, 0, 0)
        else Flow(amount, if r.value.outcome.Success? then amount else 0, 0)
      case Retry(id, _) =>
        Flow(0, if r.value.outcome.Success? then Tied(s.records[id], token) else 0, 0)
      case Redirect(_, _) => Flow(0, 0, 0)
      case Reclaim(id) => Flow(0, 0, Tied(s.records[id], token))
  }

  function RunFlow(s: State, calls: seq<Call>, token: nat): Flow {
    if calls == [] then Flow(0, 0, 0)
    else
      var n := |calls| - 1;
      var f := RunFlow(s, calls[..n], token);
      var g := FlowOf(Run(s, calls[..n]), calls[n], token);
      Flow(f.asked + g.asked, f.sent + g.sent, f.released + g.released)
  }

  lemma StepConserves(s: State, call: Call, token: nat)
    requires Inv(s)
    ensures var f := FlowOf(s, call, token);
            Owed(Step(s, call).0, token) == Owed(s, token) + f.asked - f.sent - f.released
  {
    var (t, r) := Step(s, call);
    if t != s {
      var id := if call.op.Pay? then s.nextId else call.op.id;
      StoreOwed(s, t.records[id], token);
      assert TiedUp(t, token) == TiedUp(Store(s, t.records[id]), token);
    }
  }

  /** Over every run, each token's payouts were sent exactly once, are still owed, or were released by a reclaim. */
  lemma {:induction false} RunConserves(calls: seq<Call>, token: nat)
    ensures var f := RunFlow(EMPTY, calls, token);
            f.asked == f.sent + f.released + Owed(Run(EMPTY, calls), token)
  {
    if calls == [] {
      assert TiedUp(EMPTY, token) == map[];
    } else {
      var n := |calls| - 1;
      RunConserves(calls[..n], token);
      RunKeepsInv(calls[..n]);
      StepConserves(Run(EMPTY, calls[..n]), calls[n], token);
    }
  }

  // ---------------------------------------------------------------------
  // Listing, page by page
  // ---------------------------------------------------------------------

  /** The ids a page visits, `room` results and `budget` visits at most. */
  function Scan(s: State, id: nat, room: nat, budget: nat): seq<Record>
    decreases budget
  {
    if id >= s.nextId || room == 0 || budget == 0 then []
    else if IsFailed(s, id) then [s.records[id]] + Scan(s, id + 1, room - 1, budget - 1)
    else Scan(s, id + 1, room, budget - 1)
  }

  function Min(a: nat, b: nat): nat {
    if a < b then a else b
  }

  function Page(s: State, start: nat, limit: nat): seq<Record> {
    var room := Min(limit, MAX_LIST_LIMIT);
    Scan(s, start, room, 4 * room)
  }

  /** Every Failed record from an id on, in order. */
  function FailedFrom(s: State, id: nat): seq<Record>
    decreases s.nextId - id
  {
    if id >= s.nextId then []
    else (if IsFailed(s, id) then [s.records[id]] else []) + FailedFrom(s, id + 1)
  }

  /**
   * A page is the front of the Failed records from its start: after its last
   * record comes what it left out, and it is empty only when the ids it may
   * visit hold no Failed record.
   */
  lemma ScanIsFront(s: State, id: nat, room: nat, budget: nat)
    requires Inv(s)
    ensures var p := Scan(s, id, room, budget);
            && |p| <= room
            && (p == [] <==> room == 0 || forall k :: id <= k < id + budget ==> !IsFailed(s, k))
            && (p != [] ==>
                  var last := p[|p| - 1].id;
                  && id <= p[0].id <= last < id + budget && IsFailed(s, last)
                  && FailedFrom(s, id) == p + FailedFrom(s, last + 1))
  {
    ScanEmptyExactly(s, id, room, budget);
    ScanFront(s, id, room, budget);
  }

  lemma {:induction false} ScanEmptyExactly(s: State, id: nat, room: nat, budget: nat)
    requires Inv(s)
    ensures Scan(s, id, room, budget) == [] <==> room == 0 || forall k :: id <= k < id + budget ==> !IsFailed(s, k)
    decreases budget
  {
    if id < s.nextId && room != 0 && budget != 0 && !IsFailed(s, id) {
      ScanEmptyExactly(s, id + 1, room, budget - 1);
    }
  }

  /** `p` is what the Failed records from `id` on start with, and lies within the budget. */
  ghost predicate IsFront(s: State, id: nat, p: seq<Record>, budget: nat)
    requires Inv(s)
  {
    p != [] ==>
      var last := p[|p| - 1].id;
      && id <= p[0].id <= last < id + budget && IsFailed(s, last)
      && FailedFrom(s, id) == p + FailedFrom(s, last + 1)
  }

  lemma {:induction false} ScanFront(s: State, id: nat, room: nat, budget: nat)
    requires Inv(s)
    ensures |Scan(s, id, room, budget)| <= room && IsFront(s, id, Scan(s, id, room, budget), budget)
    decreases budget
  {
    if id < s.nextId && room != 0 && budget != 0 {
      if IsFailed(s, id) {
        ScanFront(s, id + 1, room - 1, budget - 1);
        FrontCons(s, id, Scan(s, id + 1, room - 1, budget - 1), budget);
      } else {
        ScanFront(s, id + 1, room, budget - 1);
      }
    }
  }

  lemma FrontCons(s: State, id: nat, rest: seq<Record>, budget: nat)
    requires Inv(s) && id < s.nextId && IsFailed(s, id) && budget > 0 && IsFront(s, id + 1, rest, budget - 1)
    ensures IsFront(s, id, [s.records[id]] + rest, budget)
  {
    assert FailedFrom(s, id) == [s.records[id]] + FailedFrom(s, id + 1);
    if rest != [] {
      var last := rest[|rest| - 1].id;
      assert [s.records[id]] + (rest + FailedFrom(s, last + 1)) == ([s.records[id]] + rest) + FailedFrom(s, last + 1);
    }
  }

  /** Reading page after page as documented: each next page starts after the last record of the one before. */
  function AllPages(s: State, start: nat, limit: nat): seq<Record>
    requires Inv(s)
    decreases s.nextId - start
  {
    var p := Page(s, start, limit);
    if p == [] then []
    else
      ScanIsFront(s, start, Min(limit, MAX_LIST_LIMIT), 4 * Min(limit, MAX_LIST_LIMIT));
      p + AllPages(s, p[|p| - 1].id + 1, limit)
  }

  /** Some Failed id lies in [from, to). */
  ghost predicate SomeFailed(s: State, from: int, to: int) {
    exists k: nat :: from <= k < to && IsFailed(s, k)
  }

  /** No Failed id is more than `width` ids after the start or the Failed id before it. */
  ghost predicate NoLongGap(s: State, start: nat, width: nat) {
    forall id: nat :: start <= id && IsFailed(s, id) ==>
      id - start < width || SomeFailed(s, if id - width < start then start else id - width, id)
  }

  lemma {:induction false} FirstFailed(s: State, id: nat)
    requires Inv(s)
    ensures FailedFrom(s, id) == [] <==> forall k: nat :: id <= k ==> !IsFailed(s, k)
    ensures FailedFrom(s, id) != [] ==>
              exists k: nat :: id <= k && IsFailed(s, k) && !SomeFailed(s, id, k)
    decreases s.nextId - id
  {
    if id < s.nextId {
      FirstFailed(s, id + 1);
      if IsFailed(s, id) {
        assert !SomeFailed(s, id, id);
      } else if FailedFrom(s, id) != [] {
        var k: nat :| id + 1 <= k && IsFailed(s, k) && !SomeFailed(s, id + 1, k);
        assert !SomeFailed(s, id, k);
      }
    }
  }

  /** What lies after a page is as dense as what the page started from. */
  lemma GapAfterPage(s: State, start: nat, last: nat, width: nat)
    requires start <= last < start + width && IsFailed(s, last)
    requires forall id: nat :: start <= id <= last && IsFailed(s, id) ==> id - start < width
    ensures NoLongGap(s, start, width) <==> NoLongGap(s, last + 1, width)
  {
    forall id: nat | last < id && IsFailed(s, id)
      ensures (id - start < width || SomeFailed(s, if id - width < start then start else id - width, id))
         <==> (id - (last + 1) < width || SomeFailed(s, if id - width < last + 1 then last + 1 else id - width, id))
    {
      var lo := if id - width < start then start else id - width;
      var lo' := if id - width < last + 1 then last + 1 else id - width;
      if id - (last + 1) < width {
        assert lo <= last < id && IsFailed(s, last);
        assert SomeFailed(s, lo, id);
      } else {
        assert lo == lo';
      }
    }
  }

  /**
   * Paging returns every Failed record if and only if no gap between them
   * reaches four times the page size; a longer gap gives an empty page and
   * hides everything behind it.
   */
  lemma {:induction false} PagingComplete(s: State, start: nat, limit: nat)
    requires Inv(s)
    ensures AllPages(s, start, limit) == FailedFrom(s, start)
       <==> NoLongGap(s, start, 4 * Min(limit, MAX_LIST_LIMIT))
    decreases s.nextId - start
  {
    var room := Min(limit, MAX_LIST_LIMIT);
    var width := 4 * room;
    var p := Page(s, start, limit);
    ScanIsFront(s, start, room, width);
    if p == [] {
      EmptyPage(s, start, width);
    } else {
      var last := p[|p| - 1].id;
      PagingComplete(s, last + 1, limit);
      GapAfterPage(s, start, last, width);
      SamePrefix(p, AllPages(s, last + 1, limit), FailedFrom(s, last + 1));
    }
  }

  lemma SamePrefix(p: seq<Record>, a: seq<Record>, b: seq<Record>)
    ensures p + a == p + b <==> a == b
  {
    assert (p + a)[|p|..] == a && (p + b)[|p|..] == b;
  }

  lemma EmptyPage(s: State, start: nat, width: nat)
    requires Inv(s)
    requires forall k :: start <= k < start + width ==> !IsFailed(s, k)
    ensures FailedFrom(s, start) == [] <==> NoLongGap(s, start, width)
  {
    FirstFailed(s, start);
    if FailedFrom(s, start) != [] {
      var k: nat :| start <= k && IsFailed(s, k) && !SomeFailed(s, start, k);
      assert k - start >= width;
      assert !SomeFailed(s, if k - width < start then start else k - width, k);
    }
  }

  function Refusals(token: nat, a: nat, now: u64, n: nat): seq<Call> {
    if n == 0 then [] else Refusals(token, a, now, n - 1) + [Call(Pay(token, a, 1, 0, Frozen), now)]
  }

  /** The refused payouts, then the first k of them paid on a retry. */
  function Repaid(token: nat, a: nat, now: u64, n: nat, k: nat): seq<Call>
    requires k <= n < U64_MAX
  {
    if k == 0 then Refusals(token, a, now, n) else Repaid(token, a, now, n, k - 1) + [Call(Retry(k - 1, Success), now)]
  }

  lemma RefusalStep(s: State, token: nat, a: nat, now: u64)
    requires s.nextId < U64_MAX
    ensures var t := Step(s, Call(Pay(token, a, 1, 0, Frozen), now)).0;
            && t.nextId == s.nextId + 1 && IsFailed(t, s.nextId)
            && forall i :: 0 <= i < s.nextId ==> IsFailed(t, i) == IsFailed(s, i)
  {
  }

  lemma RepaymentStep(s: State, id: u64, now: u64)
    requires Inv(s) && IsFailed(s, id)
    ensures var t := Step(s, Call(Retry(id, Success), now)).0;
            && t.nextId == s.nextId && !IsFailed(t, id)
            && forall i: nat :: i != id ==> IsFailed(t, i) == IsFailed(s, i)
  {
  }

  lemma {:induction false} AfterRefusals(token: nat, a: nat, now: u64, n: nat)
    requires n < U64_MAX
    ensures var s := Run(EMPTY, Refusals(token, a, now, n));
            s.nextId == n && forall i :: 0 <= i < n ==> IsFailed(s, i)
  {
    if n > 0 {
      var before, refused := Refusals(token, a, now, n - 1), Call(Pay(token, a, 1, 0, Frozen), now);
      AfterRefusals(token, a, now, n - 1);
      RefusalStep(Run(EMPTY, before), token, a, now);
      assert Run(EMPTY, Refusals(token, a, now, n)) == Step(Run(EMPTY, before), refused).0 by {
        RunSnoc(EMPTY, before, refused);
      }
    }
  }

  lemma {:induction false} AfterRepayments(token: nat, a: nat, now: u64, n: nat, k: nat)
    requires k <= n < U64_MAX
    ensures var s := Run(EMPTY, Repaid(token, a, now, n, k));
            s.nextId == n && forall i :: 0 <= i < n ==> (IsFailed(s, i) <==> i >= k)
  {
    if k == 0 {
      AfterRefusals(token, a, now, n);
    } else {
      AfterRepayments(token, a, now, n, k - 1);
      RunKeepsInv(Repaid(token, a, now, n, k - 1));
      RunSnoc(EMPTY, Repaid(token, a, now, n, k - 1), Call(Retry(k - 1, Success), now));
      RepaymentStep(Run(EMPTY, Repaid(token, a, now, n, k - 1)), k - 1, now);
    }
  }

  lemma {:induction false} OnlyLastFailed(s: State, id: nat)
    requires id < s.nextId && IsFailed(s, s.nextId - 1)
    requires forall i :: id <= i < s.nextId - 1 ==> !IsFailed(s, i)
    ensures FailedFrom(s, id) == [s.records[s.nextId - 1]]
    decreases s.nextId - id
  {
    if id < s.nextId - 1 {
      OnlyLastFailed(s, id + 1);
    }
  }

  /**
   * For every page size: refuse one payout more than a page may visit, pay all
   * but the last on a retry, and paging from the start never shows the one
   * that is still owed.
   */
  lemma GapHidesRecord(token: nat, a: nat, now: u64, limit: nat)
    ensures var w := 4 * Min(limit, MAX_LIST_LIMIT);
            var s := Run(EMPTY, Repaid(token, a, now, w + 1, w));
            Inv(s) && IsFailed(s, w) && FailedFrom(s, 0) == [s.records[w]] && AllPages(s, 0, limit) == []
  {
    var w := 4 * Min(limit, MAX_LIST_LIMIT);
    var s := Run(EMPTY, Repaid(token, a, now, w + 1, w));
    AfterRepayments(token, a, now, w + 1, w);
    RunKeepsInv(Repaid(token, a, now, w + 1, w));
    OnlyLastFailed(s, 0);
    ScanIsFront(s, 0, Min(limit, MAX_LIST_LIMIT), w);
  }

  // ---------------------------------------------------------------------
  // The ledger in storage
  // ---------------------------------------------------------------------

  class Ledger {
    var nextId: u64
    var records: map<nat, Record>
    var liability: map<nat, i128>

    constructor ()
      ensures View() == EMPTY
    {
      nextId, records, liability := 0, map[], map[];
    }

    function View(): State
      reads this
    {
      State(nextId, records, liability)
    }

    method WriteRecord(record: Record)
      modifies this`records
      ensures View() == Store(old(View()), record)
    {
      records := records[record.id := record];
    }

    method Earmark(token: nat, amount: i128)
      modifies this`liability
      ensures View() == AddLiability(old(View()), token, amount)
    {
      var current := if token in liability then liability[token] else 0;
      liability := liability[token := SaturatingI128(current + amount)];
    }

    method Release(token: nat, amount: i128)
      modifies this`liability
      ensures View() == SubLiability(old(View()), token, amount)
    {
      var current := if token in liability then liability[token] else 0;
      var next := SaturatingI128(current - amount);
      liability := liability[token := if next > 0 then next else 0];
    }

    method PayOut(token: nat, recipient: nat, amount: i128, context: u64, answer: Outcome, now: u64)
      returns (r: Result<Reply, PayoutError>)
      modifies this
      ensures (View(), r) == DoPay(old(View()), token, recipient, amount, context, answer, now)
    {
      var outcome := TryTransfer(amount, answer);
      if outcome.Success? {
        return Ok(Attempted(outcome, None));
      }
      var id := nextId;
      if id == U64_MAX {
        return Err(Trapped);
      }
      nextId := id + 1;
      WriteRecord(Record(id, token, recipient, amount, Failed, outcome, 1, now, now, context));
      Earmark(token, amount);
      return Ok(Attempted(outcome, Some(id)));
    }

    method RetryPayout(id: u64, answer: Outcome, now: u64) returns (r: Result<Reply, PayoutError>)
      modifies this
      ensures (View(), r) == DoRetry(old(View()), id, answer, now)
    {
      if id !in records {
        return Err(NotFound);
      }
      var record := records[id];
      if !record.status.Failed? {
        return Err(NotFailed);
      }
      var outcome := TryTransfer(record.amount, answer);
      record := record.(attempts := if record.attempts < U32_MAX then record.attempts + 1 else record.attempts);
      record := record.(lastAttemptAt := now);
      if outcome.Success? {
        record := record.(status := Paid);
        WriteRecord(record);
        Release(record.token, record.amount);
      } else {
        record := record.(reason := outcome);
        WriteRecord(record);
      }
      return Ok(Attempted(outcome, None));
    }

    method UpdateRecipient(id: u64, recipient: nat) returns (r: Result<Reply, PayoutError>)
      modifies this
      ensures (View(), r) == DoRedirect(old(View()), id, recipient)
    {
      if id !in records {
        return Err(NotFound);
      }
      var record := records[id];
      if !record.status.Failed? {
        return Err(NotFailed);
      }
      if record.recipient == recipient {
        return Err(SameRecipient);
      }
      record := record.(recipient := recipient);
      WriteRecord(record);
      return Ok(Updated(record));
    }

    method ReclaimPayout(id: u64, now: u64) returns (r: Result<Reply, PayoutError>)
      modifies this
      ensures (View(), r) == DoReclaim(old(View()), id, now)
    {
      if id !in records {
        return Err(NotFound);
      }
      var record := records[id];
      if !record.status.Failed? {
        return Err(NotFailed);
      }
      if now < SaturatingAddU64(record.firstFailedAt, RECLAIM_TIMEOUT_SECS) {
        return Err(ReclaimTooEarly);
      }
      record := record.(status := Reclaimed);
      WriteRecord(record);
      Release(record.token, record.amount);
      return Ok(Updated(record));
    }

    method ListFailed(start: u64, limit: nat) returns (out: seq<Record>)
      ensures out == Page(View(), start, limit)
    {
      var room := Min(limit, MAX_LIST_LIMIT);
      var end := nextId;
      out := [];
      var id: nat := start;
      var budget: nat := 4 * room;
      while id < end && |out| < room && budget > 0
        invariant |out| <= room
        invariant out + Scan(View(), id, room - |out|, budget) == Page(View(), start, limit)
        decreases budget
      {
        if id in records {
          var record := records[id];
          if record.status.Failed? {
            out := out + [record];
          }
        }
        id := id + 1;
        budget := budget - 1;
      }
    }
  }
}
