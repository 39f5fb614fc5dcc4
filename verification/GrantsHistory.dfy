/** Grants and milestones of the plain model, traced back to the calls that were accepted. */
module GrantsHistory {
  import opened Results
  import opened History
  import opened Sums
  import opened GrantRecords
  import opened GrantsModel

  /** An accepted creation, confirmation or claim, and what it returned. */
  datatype Entry = Entry(op: Op, value: int)

  /** What one call that is not a batch returns, or why it is refused. */
  function Answer(s: State, op: Op): Result<int, GrantsError> {
    match op
    case DoCreate(caller, recipient, total, amounts) =>
      var r := Create(s, caller, recipient, total, amounts).1;
      if r.Ok? then Ok(r.value) else Err(r.error)
    case DoConfirm(caller, id, index) =>
      var r := Confirm(s, caller, id, index).1;
      if r.Ok? then Ok(0) else Err(r.error)
    case DoClaim(recipient, id) =>
      var r := Claim(s, recipient, id).1;
      if r.Ok? then Ok(r.value) else Err(r.error)
    case DoBatch(_, _) => Err(Unauthorized)
  }

  /** The calls a call stands for: a batch that goes through is its operations, one that does not is nothing. */
  function Singles(s: State, op: Op): seq<Op> {
    match op
    case DoBatch(caller, ops) => if Batch(s, caller, ops).1.Ok? then AsCalls(caller, ops) else []
    case _ => [op]
  }

  function Flat(s: State, ops: seq<Op>): seq<Op> {
    if ops == [] then []
    else
      var n := |ops| - 1;
      Flat(s, ops[..n]) + Singles(Run(s, ops[..n]).0, ops[n])
  }

  function Log(s: State, ops: seq<Op>): seq<Entry> {
    if ops == [] then []
    else
      var n := |ops| - 1;
      var r := Answer(Run(s, ops[..n]).0, ops[n]);
      Log(s, ops[..n]) + if r.Ok? then [Entry(ops[n], r.value)] else []
  }

  predicate NoBatches(ops: seq<Op>) {
    forall i :: 0 <= i < |ops| ==> !ops[i].DoBatch?
  }

  // ---------------------------------------------------------------------
  // Batches fall apart into calls
  // ---------------------------------------------------------------------

  lemma {:induction false} RunConcat(s: State, a: seq<Op>, b: seq<Op>)
    ensures Run(s, a + b).0 == Run(Run(s, a).0, b).0
    ensures Run(s, a + b).1 == Run(s, a).1 + Run(Run(s, a).0, b).1
  {
    if b == [] {
      assert a + b == a;
    } else {
      var n := |b| - 1;
      assert (a + b)[..|a + b| - 1] == a + b[..n];
      RunConcat(s, a, b[..n]);
    }
  }

  lemma RunLast(s: State, ops: seq<Op>)
    requires ops != []
    ensures Run(s, ops).0 == Step(Run(s, ops[..|ops| - 1]).0, ops[|ops| - 1]).0
    ensures Run(s, ops).1 == Run(s, ops[..|ops| - 1]).1 + Step(Run(s, ops[..|ops| - 1]).0, ops[|ops| - 1]).1
  {
  }

  lemma SinglesRun(s: State, op: Op)
    ensures NoBatches(Singles(s, op)) && Run(s, Singles(s, op)) == Step(s, op)
  {
    match op {
      case DoBatch(caller, ops) =>
        if Batch(s, caller, ops).1.Ok? {
          BatchIsAtomic(s, caller, ops);
          NothingPaid(s, AsCalls(caller, ops));
        }
      case _ =>
        assert [op][..0] == [];
        assert Run(s, []) == (s, 0);
    }
  }

  lemma {:induction false} NothingPaid(s: State, calls: seq<Op>)
    requires forall i :: 0 <= i < |calls| ==> calls[i].DoCreate? || calls[i].DoConfirm?
    ensures Run(s, calls).1 == 0
  {
    if calls != [] {
      NothingPaid(s, calls[..|calls| - 1]);
    }
  }

  /** Any run leads where the same run leads with every batch replaced by what it stands for. */
  lemma {:induction false} FlatRuns(s: State, ops: seq<Op>)
    ensures NoBatches(Flat(s, ops)) && Run(s, Flat(s, ops)) == Run(s, ops)
  {
    if ops != [] {
      var n := |ops| - 1;
      var t, front := Run(s, ops[..n]).0, Flat(s, ops[..n]);
      FlatRuns(s, ops[..n]);
      SinglesRun(t, ops[n]);
      RunConcat(s, front, Singles(t, ops[n]));
      RunLast(s, ops);
    }
  }

  // ---------------------------------------------------------------------
  // The state against the log
  // ---------------------------------------------------------------------

  function Creating(): Entry -> bool {
    (e: Entry) => e.op.DoCreate?
  }

  function Creates(id: nat): Entry -> bool {
    (e: Entry) => e.op.DoCreate? && e.value == id
  }

  function Confirms(id: nat, i: nat): Entry -> bool {
    (e: Entry) => e.op.DoConfirm? && e.op.id == id && e.op.index == i
  }

  function Claims(id: nat): Entry -> bool {
    (e: Entry) => e.op.DoClaim? && e.op.id == id
  }

  function ConfirmsOrClaims(id: nat, i: nat): Entry -> bool {
    (e: Entry) => Confirms(id, i)(e) || Claims(id)(e)
  }

  /** Confirmed, and then claimed. */
  predicate ClaimedBy(log: seq<Entry>, id: nat, i: nat) {
    && Last(log, Confirms(id, i)).Some?
    && Last(log, ConfirmsOrClaims(id, i)).Some? && Last(log, ConfirmsOrClaims(id, i)).value.op.DoClaim?
  }

  /** A grant is what its one creation asked for. */
  ghost predicate GrantTraced(s: State, log: seq<Entry>, id: nat) {
    var e := Last(log, Creates(id));
    && (id in s.grants <==> e.Some?) && Count(log, Creates(id)) == (if id in s.grants then 1 else 0)
    && (id !in s.grants ==> Last(log, Claims(id)).None?)
    && (id in s.grants && e.Some? && e.value.op.DoCreate? ==>
          var g, op := s.grants[id], e.value.op;
          && g.recipient == op.recipient && g.total == op.total && |g.milestones| == |op.amounts|
          && forall i :: 0 <= i < |g.milestones| ==> g.milestones[i].amount == op.amounts[i])
  }

  /** A milestone is confirmed once it was confirmed, and claimed once a claim followed. */
  ghost predicate MilestoneTraced(s: State, log: seq<Entry>, id: nat, i: nat) {
    && Count(log, Confirms(id, i)) <= 1
    && (id in s.grants && i < |s.grants[id].milestones| ==>
          && (s.grants[id].milestones[i].confirmed <==> Last(log, Confirms(id, i)).Some?)
          && (s.grants[id].milestones[i].claimed <==> ClaimedBy(log, id, i)))
    && (!(id in s.grants && i < |s.grants[id].milestones|) ==> Last(log, Confirms(id, i)).None?)
  }

  ghost predicate HistoryOk(s: State, log: seq<Entry>) {
    && s.nextId == Count(log, Creating())
    && (forall id :: GrantTraced(s, log, id))
    && (forall id, i :: MilestoneTraced(s, log, id, i))
  }

  // ---------------------------------------------------------------------
  // One call
  // ---------------------------------------------------------------------

  /** What an accepted call changes, and what it found when it did. */
  ghost predicate Effect(s: State, t: State, e: Entry) {
    match e.op
    case DoCreate(caller, recipient, total, amounts) =>
      && caller == s.governance && e.value == s.nextId && s.nextId in t.grants
      && var g := t.grants[s.nextId];
      && t == s.(nextId := s.nextId + 1, grants := s.grants[s.nextId := g])
      && g.recipient == recipient && g.total == total && g.claimable == 0 && |g.milestones| == |amounts|
      && forall i :: 0 <= i < |amounts| ==> g.milestones[i] == Milestone(amounts[i], false, false)
    case DoConfirm(caller, id, index) =>
      && caller == s.governance && e.value == 0 && id in s.grants && id in t.grants
      && var g, h := s.grants[id], t.grants[id];
      && t == s.(grants := s.grants[id := h])
      && index < |g.milestones| && !g.milestones[index].confirmed
      && (forall k :: 0 <= k < index ==> g.milestones[k].confirmed)
      && h.claimable == g.claimable + g.milestones[index].amount
      && h == g.(milestones := g.milestones[index := g.milestones[index].(confirmed := true)], claimable := h.claimable)
    case DoClaim(recipient, id) =>
      && id in s.grants && id in t.grants
      && var g, h := s.grants[id], t.grants[id];
      && t == s.(grants := s.grants[id := h])
      && recipient == g.recipient && e.value == g.claimable > 0
      && h == g.(milestones := h.milestones, claimable := 0) && |h.milestones| == |g.milestones|
      && forall i :: 0 <= i < |g.milestones| ==>
           h.milestones[i] == g.milestones[i].(claimed := g.milestones[i].claimed || g.milestones[i].confirmed)
    case DoBatch(_, _) => false
  }

  lemma AnswerEffect(s: State, op: Op)
    requires Inv(s) && !op.DoBatch?
    ensures var t := Step(s, op).0;
            && (Answer(s, op).Err? ==> t == s)
            && (Answer(s, op).Ok? ==> Effect(s, t, Entry(op, Answer(s, op).value)))
  {
    match op {
      case DoCreate(caller, recipient, total, amounts) =>
      case DoConfirm(caller, id, index) => ConfirmKeeps(s, caller, id, index);
      case DoClaim(recipient, id) =>
    }
  }

  lemma GrantStep(s: State, t: State, log: seq<Entry>, e: Entry, id: nat)
    requires Effect(s, t, e) && GrantTraced(s, log, id) && (id in s.grants ==> id < s.nextId)
    ensures GrantTraced(t, log + [e], id)
  {
    LastSnoc(log, e, Creates(id));
    CountSnoc(log, e, Creates(id));
    LastSnoc(log, e, Claims(id));
  }

  lemma MilestoneStep(s: State, t: State, log: seq<Entry>, e: Entry, id: nat, i: nat)
    requires Effect(s, t, e) && MilestoneTraced(s, log, id, i) && (id in s.grants ==> id < s.nextId)
    ensures MilestoneTraced(t, log + [e], id, i)
  {
    LastSnoc(log, e, Confirms(id, i));
    CountSnoc(log, e, Confirms(id, i));
    CountLast(log, Confirms(id, i));
    LastSnoc(log, e, ConfirmsOrClaims(id, i));
  }

  lemma EffectTraced(s: State, t: State, log: seq<Entry>, e: Entry)
    requires Inv(s) && Effect(s, t, e) && HistoryOk(s, log)
    ensures HistoryOk(t, log + [e])
  {
    CountSnoc(log, e, Creating());
    forall id ensures GrantTraced(t, log + [e], id) {
      GrantStep(s, t, log, e, id);
    }
    forall id, i ensures MilestoneTraced(t, log + [e], id, i) {
      MilestoneStep(s, t, log, e, id, i);
    }
  }

  lemma {:induction false} SinglesTraced(governance: nat, ops: seq<Op>)
    requires NoBatches(ops)
    ensures var t := Run(Initial(governance), ops).0;
            HistoryOk(t, Log(Initial(governance), ops)) && t.governance == governance
  {
    if ops != [] {
      var n := |ops| - 1;
      var s, log := Run(Initial(governance), ops[..n]).0, Log(Initial(governance), ops[..n]);
      SinglesTraced(governance, ops[..n]);
      RunConserves(governance, ops[..n]);
      AnswerEffect(s, ops[n]);
      if Answer(s, ops[n]).Ok? {
        EffectTraced(s, Step(s, ops[n]).0, log, Entry(ops[n], Answer(s, ops[n]).value));
      } else {
        assert log + [] == log;
      }
    }
  }

  /**
   * On every run, batches included: a grant has the recipient, award and
   * amounts of the one creation that returned its id, and each milestone is
   * confirmed if and only if it was confirmed, once, and claimed if and only
   * if a claim of its grant followed.
   */
  lemma RunIsTraced(governance: nat, ops: seq<Op>)
    ensures var s := Initial(governance);
            HistoryOk(Run(s, ops).0, Log(s, Flat(s, ops))) && Run(s, ops).0.governance == governance
  {
    FlatRuns(Initial(governance), ops);
    SinglesTraced(governance, Flat(Initial(governance), ops));
  }

  // ---------------------------------------------------------------------
  // What is accepted
  // ---------------------------------------------------------------------

  predicate Exists(log: seq<Entry>, id: nat) {
    Last(log, Creates(id)).Some? && Last(log, Creates(id)).value.op.DoCreate?
  }

  /** What the accepted calls so far allow. */
  ghost predicate Welcome(log: seq<Entry>, governance: nat, op: Op) {
    match op
    case DoCreate(caller, _, total, amounts) =>
      && caller == governance && amounts != [] && (forall i :: 0 <= i < |amounts| ==> amounts[i] > 0)
      && Sum(amounts) == total
    case DoConfirm(caller, id, index) =>
      && caller == governance && Exists(log, id) && index < |Last(log, Creates(id)).value.op.amounts|
      && (forall k: nat :: k < index ==> Last(log, Confirms(id, k)).Some?) && Last(log, Confirms(id, index)).None?
    case DoClaim(recipient, id) =>
      && Exists(log, id) && recipient == Last(log, Creates(id)).value.op.recipient
      && exists i: nat :: i < |Last(log, Creates(id)).value.op.amounts| && Confirmed(log, id, i) && !ClaimedBy(log, id, i)
    case DoBatch(_, _) => false
  }

  predicate Confirmed(log: seq<Entry>, id: nat, i: nat) {
    Last(log, Confirms(id, i)).Some?
  }

  /**
   * After any run, the accepted calls before it decide whether a creation, a
   * confirmation or a claim is accepted, and a creation returns the next id.
   */
  lemma AcceptedByHistory(governance: nat, ops: seq<Op>, op: Op)
    requires !op.DoBatch?
    ensures var s := Initial(governance);
            && (Answer(Run(s, ops).0, op).Ok? <==> Welcome(Log(s, Flat(s, ops)), governance, op))
            && (Answer(Run(s, ops).0, op).Ok? && op.DoCreate? ==>
                  Answer(Run(s, ops).0, op).value == Count(Log(s, Flat(s, ops)), Creating()))
  {
    var s := Initial(governance);
    var t, log := Run(s, ops).0, Log(s, Flat(s, ops));
    RunIsTraced(governance, ops);
    RunConserves(governance, ops);
    match op {
      case DoCreate(caller, recipient, total, amounts) => ScanExactly(0, amounts);
      case DoConfirm(caller, id, index) => ConfirmWelcome(t, log, caller, id, index);
      case DoClaim(recipient, id) => ClaimWelcome(t, log, recipient, id);
    }
  }

  lemma {:induction false} ScanExactly(acc: i128, amounts: seq<i128>)
    requires acc >= 0
    ensures (forall i :: 0 <= i < |amounts| ==> amounts[i] > 0) ==> Sum(amounts) >= |amounts|
    ensures ScanAmounts(acc, amounts).Ok? <==>
              (forall i :: 0 <= i < |amounts| ==> amounts[i] > 0) && acc + Sum(amounts) <= I128_MAX
    ensures ScanAmounts(acc, amounts).Ok? ==> ScanAmounts(acc, amounts).value == acc + Sum(amounts)
    decreases |amounts|
  {
    if amounts != [] {
      var rest := amounts[1..];
      assert amounts == [amounts[0]] + rest;
      SumConcat([amounts[0]], rest);
      assert Sum([amounts[0]]) == amounts[0];
      assert forall i :: 1 <= i < |amounts| ==> amounts[i] == rest[i - 1];
      if amounts[0] > 0 && FitsI128(acc + amounts[0]) {
        ScanExactly(acc + amounts[0], rest);
      } else {
        ScanExactly(0, rest);
      }
    }
  }

  lemma ConfirmWelcome(s: State, log: seq<Entry>, caller: nat, id: nat, index: nat)
    requires Inv(s) && HistoryOk(s, log)
    ensures Answer(s, DoConfirm(caller, id, index)).Ok? <==> Welcome(log, s.governance, DoConfirm(caller, id, index))
  {
    ConfirmKeeps(s, caller, id, index);
    assert GrantTraced(s, log, id);
    assert MilestoneTraced(s, log, id, index);
    if id in s.grants {
      var ms := s.grants[id].milestones;
      forall k: nat
        ensures k < |ms| ==> (ms[k].confirmed <==> Last(log, Confirms(id, k)).Some?)
      {
        assert MilestoneTraced(s, log, id, k);
      }
    }
  }

  lemma ClaimWelcome(s: State, log: seq<Entry>, recipient: nat, id: nat)
    requires Inv(s) && HistoryOk(s, log)
    ensures Answer(s, DoClaim(recipient, id)).Ok? <==> Welcome(log, s.governance, DoClaim(recipient, id))
  {
    assert GrantTraced(s, log, id);
    if id in s.grants {
      var ms := s.grants[id].milestones;
      SomethingUnclaimed(ms);
      forall i: nat
        ensures i < |ms| ==> (ms[i].confirmed && !ms[i].claimed <==> Confirmed(log, id, i) && !ClaimedBy(log, id, i))
      {
        assert MilestoneTraced(s, log, id, i);
      }
    }
  }

  lemma {:induction false} SomethingUnclaimed(ms: seq<Milestone>)
    requires Positive(ms)
    ensures Unclaimed(ms) >= 0
    ensures Unclaimed(ms) > 0 <==> exists i: nat :: i < |ms| && ms[i].confirmed && !ms[i].claimed
  {
    if ms != [] {
      var n := |ms| - 1;
      SomethingUnclaimed(ms[..n]);
      if i: nat :| i < n && ms[..n][i].confirmed && !ms[..n][i].claimed {
        assert ms[i].confirmed && !ms[i].claimed;
      }
      if i: nat :| i < n && ms[i].confirmed && !ms[i].claimed {
        assert ms[..n][i].confirmed && !ms[..n][i].claimed;
      }
    }
  }
}
