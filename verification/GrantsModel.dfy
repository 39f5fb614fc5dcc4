/**
 * The dependency-free grants model: create, confirm, claim and atomic batches.
 * There is no host to roll anything back here, so that a failing call changes
 * nothing is a property of the code order and is proved.
 */
module GrantsModel {
  import opened Results
  import opened Sums
  import opened GrantRecords
  import opened Consistency

  datatype GrantsError =
    | Unauthorized
    | GrantNotFound
    | NoMilestones
    | SumMismatch
    | InvalidMilestoneAmount
    | InvalidTotalAmount
    | InvalidMilestoneIndex
    | AlreadyConfirmed
    | OutOfOrder
    | NotRecipient
    | NothingToClaim
    | NoExcessFunds
    | InvalidRescueAmount
    | BatchTooLarge
    | BatchFailed(index: nat, error: GrantsError)

  const MAX_BATCH_OPS: nat := 16

  datatype GrantsOp =
    | CreateOp(recipient: nat, total: i128, amounts: seq<i128>)
    | ConfirmOp(id: nat, index: nat)

  datatype State = State(governance: nat, nextId: nat, grants: map<nat, Grant>)

  // ---------------------------------------------------------------------
  // Transitions
  // ---------------------------------------------------------------------

  /** Adds the amounts up from the left; the first non-positive one or overflow decides the error. */
  function ScanAmounts(acc: i128, amounts: seq<i128>): Result<i128, GrantsError>
    decreases |amounts|
  {
    if amounts == [] then Ok(acc)
    else if amounts[0] <= 0 then Err(InvalidMilestoneAmount)
    else if !FitsI128(acc + amounts[0]) then Err(SumMismatch)
    else ScanAmounts(acc + amounts[0], amounts[1..])
  }

  function Schedule(amounts: seq<i128>): (ms: seq<Milestone>)
    ensures |ms| == |amounts|
  {
    seq(|amounts|, i requires 0 <= i < |amounts| => Milestone(amounts[i], false, false))
  }

  function Create(s: State, caller: nat, recipient: nat, total: i128, amounts: seq<i128>)
    : (State, Result<nat, GrantsError>)
  {
    if caller != s.governance then (s, Err(Unauthorized))
    else if total <= 0 then (s, Err(InvalidTotalAmount))
    else if amounts == [] then (s, Err(NoMilestones))
    else
      match ScanAmounts(0, amounts)
      case Err(e) => (s, Err(e))
      case Ok(sum) =>
        if sum != total then (s, Err(SumMismatch))
        else
          (s.(nextId := s.nextId + 1, grants := s.grants[s.nextId := Grant(recipient, total, Schedule(amounts), 0)]),
           Ok(s.nextId))
  }

  function Confirm(s: State, caller: nat, id: nat, index: nat): (State, Result<(), GrantsError>) {
    if caller != s.governance then (s, Err(Unauthorized))
    else if id !in s.grants then (s, Err(GrantNotFound))
    else
      var g := s.grants[id];
      if index >= |g.milestones| then (s, Err(InvalidMilestoneIndex))
      else if exists k :: 0 <= k < index && !g.milestones[k].confirmed then (s, Err(OutOfOrder))
      else if g.milestones[index].confirmed then (s, Err(AlreadyConfirmed))
      else
        var ms := g.milestones[index := g.milestones[index].(confirmed := true)];
        if AddRefused(g.claimable, g.milestones[index].amount) then
          // The flag is already set when the checked addition refuses.
          (s.(grants := s.grants[id := g.(milestones := ms)]), Err(SumMismatch))
        else
          (s.(grants := s.grants[id := g.(milestones := ms, claimable := g.claimable + g.milestones[index].amount)]),
           Ok(()))
  }

  function Claim(s: State, recipient: nat, id: nat): (State, Result<i128, GrantsError>) {
    if id !in s.grants then (s, Err(GrantNotFound))
    else
      var g := s.grants[id];
      if g.recipient != recipient then (s, Err(NotRecipient))
      else if g.claimable <= 0 then (s, Err(NothingToClaim))
      else
        (s.(grants := s.grants[id := g.(milestones := ClaimAll(g.milestones), claimable := 0)]), Ok(g.claimable))
  }

  function Apply(s: State, caller: nat, op: GrantsOp): (State, Option<GrantsError>) {
    match op
    case CreateOp(recipient, total, amounts) =>
      var (t, r) := Create(s, caller, recipient, total, amounts);
      (t, if r.Ok? then None else Some(r.error))
    case ConfirmOp(id, index) =>
      var (t, r) := Confirm(s, caller, id, index);
      (t, if r.Ok? then None else Some(r.error))
  }

  /** Runs operations one after the other, stopping at the first failure. */
  function Sequence(s: State, caller: nat, ops: seq<GrantsOp>): (r: (State, Option<(nat, GrantsError)>))
    ensures r.1.Some? ==> r.1.value.0 < |ops|
  {
    if ops == [] then (s, None)
    else
      var n := |ops| - 1;
      var (t, failed) := Sequence(s, caller, ops[..n]);
      if failed.Some? then (t, failed)
      else
        var (u, error) := Apply(t, caller, ops[n]);
        (u, if error.None? then None else Some((n, error.value)))
  }

  function Batch(s: State, caller: nat, ops: seq<GrantsOp>): (State, Result<(), GrantsError>) {
    if caller != s.governance then (s, Err(Unauthorized))
    else if |ops| > MAX_BATCH_OPS then (s, Err(BatchTooLarge))
    else
      var (t, failed) := Sequence(s, caller, ops);
      match failed
      case None => (t, Ok(()))
      case Some((index, error)) => (s, Err(BatchFailed(index, error)))
  }

  // ---------------------------------------------------------------------
  // Invariant
  // ---------------------------------------------------------------------

  ghost predicate GrantOk(g: Grant) {
    && Positive(g.milestones) && Sum(Amounts(g.milestones)) == g.total
    && ClaimedOnlyConfirmed(g.milestones) && InOrder(g.milestones)
    && Unclaimed(g.milestones) == g.claimable
  }

  ghost predicate Inv(s: State) {
    forall id :: id in s.grants ==> id < s.nextId && GrantOk(s.grants[id])
  }

  /** Every grant that satisfies the invariant passes the executable check. */
  lemma GrantOkPassesCheck(g: Grant)
    requires GrantOk(g)
    ensures Consistent(g)
  {
    var s := Amounts(g.milestones);
    forall n | 0 <= n <= |s|
      ensures FitsI128(Sum(s[..n]))
    {
      SumPrefixMonotone(s, n, |s|);
      assert s[..|s|] == s;
    }
    SaturationIdle(g.milestones);
  }

  lemma {:induction false} ScanMeaning(acc: i128, amounts: seq<i128>)
    requires acc >= 0
    ensures ScanAmounts(acc, amounts).Ok? ==>
              && ScanAmounts(acc, amounts).value == acc + Sum(amounts)
              && forall i :: 0 <= i < |amounts| ==> amounts[i] > 0
    decreases |amounts|
  {
    if amounts != [] && amounts[0] > 0 && FitsI128(acc + amounts[0]) {
      ScanMeaning(acc + amounts[0], amounts[1..]);
      assert amounts == [amounts[0]] + amounts[1..];
      SumConcat([amounts[0]], amounts[1..]);
    }
  }

  lemma ScheduleOk(amounts: seq<i128>, total: i128, recipient: nat)
    requires ScanAmounts(0, amounts) == Ok(total)
    ensures GrantOk(Grant(recipient, total, Schedule(amounts), 0))
    ensures Owed(Schedule(amounts)) == total
  {
    ScanMeaning(0, amounts);
    assert Amounts(Schedule(amounts)) == amounts;
    FreshSchedule(amounts);
  }

  lemma {:induction false} FreshSchedule(amounts: seq<i128>)
    ensures Unclaimed(Schedule(amounts)) == 0 && Owed(Schedule(amounts)) == Sum(amounts)
  {
    if amounts != [] {
      var n := |amounts| - 1;
      assert Schedule(amounts)[..n] == Schedule(amounts[..n]);
      FreshSchedule(amounts[..n]);
    }
  }

  /**
   * Confirming keeps the invariant; its overflow branch is never taken, so a
   * refused confirmation leaves the state exactly as it was.
   */
  lemma ConfirmKeeps(s: State, caller: nat, id: nat, index: nat)
    requires Inv(s)
    ensures var (t, r) := Confirm(s, caller, id, index);
            && Inv(t) && r != Err(SumMismatch) && (r.Err? ==> t == s)
            && (r.Ok? ==> Owed(t.grants[id].milestones) == Owed(s.grants[id].milestones)
                          && t.grants[id].total == s.grants[id].total)
  {
    var (t, r) := Confirm(s, caller, id, index);
    if id in s.grants && index < |s.grants[id].milestones| && !s.grants[id].milestones[index].confirmed {
      var g := s.grants[id];
      ConfirmOne(g.milestones, index);
      var ms := g.milestones[index := g.milestones[index].(confirmed := true)];
      assert Positive(ms);
      SaturationIdle(g.milestones);
      SaturationIdle(ms);
    }
  }

  lemma ClaimKeeps(s: State, recipient: nat, id: nat)
    requires Inv(s)
    ensures var (t, r) := Claim(s, recipient, id);
            && Inv(t) && (r.Err? ==> t == s)
            && (r.Ok? ==> && r.value > 0
                          && Owed(t.grants[id].milestones) == Owed(s.grants[id].milestones) - r.value
                          && t.grants[id].total == s.grants[id].total)
  {
    if id in s.grants {
      ClaimSettles(s.grants[id].milestones);
    }
  }

  lemma CreateKeeps(s: State, caller: nat, recipient: nat, total: i128, amounts: seq<i128>)
    requires Inv(s)
    ensures var (t, r) := Create(s, caller, recipient, total, amounts);
            && Inv(t) && (r.Err? ==> t == s)
            && (r.Ok? ==> && r.value !in s.grants
                          && Owed(t.grants[r.value].milestones) == total == t.grants[r.value].total)
  {
    if ScanAmounts(0, amounts) == Ok(total) {
      ScheduleOk(amounts, total, recipient);
    }
  }

  lemma ApplyKeeps(s: State, caller: nat, op: GrantsOp)
    requires Inv(s)
    ensures var (t, error) := Apply(s, caller, op);
            && Inv(t) && (error.Some? ==> t == s)
            && Approved(t) - Liabilities(t) == Approved(s) - Liabilities(s)
  {
    match op {
      case CreateOp(recipient, total, amounts) =>
        CreateKeeps(s, caller, recipient, total, amounts);
        var (t, r) := Create(s, caller, recipient, total, amounts);
        if r.Ok? {
          StoreGrant(s, t, r.value);
        }
      case ConfirmOp(id, index) =>
        ConfirmKeeps(s, caller, id, index);
        var (t, r) := Confirm(s, caller, id, index);
        if r.Ok? {
          StoreGrant(s, t, id);
        }
    }
  }

  // ---------------------------------------------------------------------
  // Money over whole runs
  // ---------------------------------------------------------------------

  function Totals(s: State): map<nat, int> {
    map id | id in s.grants :: s.grants[id].total
  }

  function Owing(s: State): map<nat, int> {
    map id | id in s.grants :: Owed(s.grants[id].milestones)
  }

  ghost function Approved(s: State): int {
    MapSum(Totals(s))
  }

  ghost function Liabilities(s: State): int {
    MapSum(Owing(s))
  }

  lemma StoreGrant(s: State, t: State, id: nat)
    requires id in t.grants && t.grants == s.grants[id := t.grants[id]]
    ensures var was := if id in s.grants then Some(s.grants[id]) else None;
            && Approved(t) == Approved(s) - (if was.Some? then was.value.total else 0) + t.grants[id].total
            && Liabilities(t) == Liabilities(s) - (if was.Some? then Owed(was.value.milestones) else 0)
                               + Owed(t.grants[id].milestones)
  {
    assert Totals(t) == Totals(s)[id := t.grants[id].total];
    assert Owing(t) == Owing(s)[id := Owed(t.grants[id].milestones)];
    MapSumUpdate(Totals(s), id, t.grants[id].total);
    MapSumUpdate(Owing(s), id, Owed(t.grants[id].milestones));
  }

  lemma {:induction false} SequenceKeeps(s: State, caller: nat, ops: seq<GrantsOp>)
    requires Inv(s)
    ensures var (t, failed) := Sequence(s, caller, ops);
            Inv(t) && Approved(t) - Liabilities(t) == Approved(s) - Liabilities(s)
  {
    if ops != [] {
      var n := |ops| - 1;
      SequenceKeeps(s, caller, ops[..n]);
      var (t, failed) := Sequence(s, caller, ops[..n]);
      if failed.None? {
        ApplyKeeps(t, caller, ops[n]);
      }
    }
  }

  datatype Op =
    | DoCreate(caller: nat, recipient: nat, total: i128, amounts: seq<i128>)
    | DoConfirm(caller: nat, id: nat, index: nat)
    | DoClaim(recipient: nat, id: nat)
    | DoBatch(caller: nat, ops: seq<GrantsOp>)

  /** The state after one call and the amount it paid out. */
  function Step(s: State, op: Op): (State, int) {
    match op
    case DoCreate(caller, recipient, total, amounts) => (Create(s, caller, recipient, total, amounts).0, 0)
    case DoConfirm(caller, id, index) => (Confirm(s, caller, id, index).0, 0)
    case DoClaim(recipient, id) =>
      var (t, r) := Claim(s, recipient, id);
      (t, if r.Ok? then r.value else 0)
    case DoBatch(caller, ops) => (Batch(s, caller, ops).0, 0)
  }

  function Run(s: State, ops: seq<Op>): (State, int) {
    if ops == [] then (s, 0)
    else
      var n := |ops| - 1;
      var (t, paid) := Run(s, ops[..n]);
      var (u, amount) := Step(t, ops[n]);
      (u, paid + amount)
  }

  function Initial(governance: nat): State {
    State(governance, 0, map[])
  }

  /** The single call an operation of a batch stands for. */
  function AsCall(caller: nat, op: GrantsOp): Op {
    match op
    case CreateOp(recipient, total, amounts) => DoCreate(caller, recipient, total, amounts)
    case ConfirmOp(id, index) => DoConfirm(caller, id, index)
  }

  function AsCalls(caller: nat, ops: seq<GrantsOp>): (calls: seq<Op>)
    ensures |calls| == |ops|
  {
    seq(|ops|, i requires 0 <= i < |ops| => AsCall(caller, ops[i]))
  }

  /** What a single creation or confirmation is refused with, if it is. */
  function Refusal(s: State, op: Op): Option<GrantsError> {
    match op
    case DoCreate(caller, recipient, total, amounts) =>
      var r := Create(s, caller, recipient, total, amounts).1;
      if r.Ok? then None else Some(r.error)
    case DoConfirm(caller, id, index) =>
      var r := Confirm(s, caller, id, index).1;
      if r.Ok? then None else Some(r.error)
    case _ => None
  }

  /** Each of the first n calls is accepted when the ones before it have been made. */
  ghost predicate AcceptedInTurn(s: State, calls: seq<Op>, n: nat)
    requires n <= |calls|
  {
    forall k :: 0 <= k < n ==> Refusal(Run(s, calls[..k]).0, calls[k]).None?
  }

  /** Call k is the first that is refused, and this is why. */
  ghost predicate RefusedFirst(s: State, calls: seq<Op>, k: nat, error: GrantsError) {
    k < |calls| && AcceptedInTurn(s, calls, k) && Refusal(Run(s, calls[..k]).0, calls[k]) == Some(error)
  }

  /**
   * A batch of at most sixteen by governance is all or nothing: either each of its operations, made as a call
   * of its own, is accepted in turn and the state is the one those calls lead
   * to; or the state is untouched and the error is the refusal of the first
   * call that is not accepted.
   */
  lemma BatchIsAtomic(s: State, caller: nat, ops: seq<GrantsOp>)
    ensures var (t, r) := Batch(s, caller, ops);
            var calls := AsCalls(caller, ops);
            if caller != s.governance then t == s && r == Err(Unauthorized)
            else if |ops| > MAX_BATCH_OPS then t == s && r == Err(BatchTooLarge)
            else
              && (r.Ok? ==> t == Run(s, calls).0 && AcceptedInTurn(s, calls, |calls|))
              && (r.Err? ==> t == s && r.error.BatchFailed? && RefusedFirst(s, calls, r.error.index, r.error.error))
  {
    SequenceIsRun(s, caller, ops);
  }

  lemma {:induction false} SequenceIsRun(s: State, caller: nat, ops: seq<GrantsOp>)
    ensures var (t, failed) := Sequence(s, caller, ops);
            var calls := AsCalls(caller, ops);
            && (failed.None? ==> t == Run(s, calls).0 && AcceptedInTurn(s, calls, |calls|))
            && (failed.Some? ==> RefusedFirst(s, calls, failed.value.0, failed.value.1))
  {
    if ops != [] {
      var n := |ops| - 1;
      var calls := AsCalls(caller, ops);
      SequenceIsRun(s, caller, ops[..n]);
      assert calls[..n] == AsCalls(caller, ops[..n]);
      var (t, failed) := Sequence(s, caller, ops[..n]);
      if failed.None? {
        AcceptedPrefix(s, calls, n, n);
        ApplyIsStep(t, caller, ops[n]);
        LastCall(s, calls, t);
      } else {
        AcceptedPrefix(s, calls, n, failed.value.0);
      }
    }
  }

  lemma ApplyIsStep(s: State, caller: nat, op: GrantsOp)
    ensures Apply(s, caller, op) == (Step(s, AsCall(caller, op)).0, Refusal(s, AsCall(caller, op)))
  {
  }

  lemma AcceptedPrefix(s: State, calls: seq<Op>, n: nat, m: nat)
    requires m <= n <= |calls|
    ensures calls[..n][..m] == calls[..m] && (m < n ==> calls[..n][m] == calls[m])
    ensures AcceptedInTurn(s, calls[..n], m) <==> AcceptedInTurn(s, calls, m)
  {
    assert forall k :: 0 <= k <= m ==> calls[..n][..k] == calls[..k];
  }

  lemma LastCall(s: State, calls: seq<Op>, t: State)
    requires calls != [] && AcceptedInTurn(s, calls, |calls| - 1) && t == Run(s, calls[..|calls| - 1]).0
    ensures var last := calls[|calls| - 1];
            && Run(s, calls).0 == Step(t, last).0
            && (Refusal(t, last).None? ==> AcceptedInTurn(s, calls, |calls|))
            && (Refusal(t, last).Some? ==> RefusedFirst(s, calls, |calls| - 1, Refusal(t, last).value))
  {
  }

  lemma StepKeeps(s: State, op: Op)
    requires Inv(s)
    ensures var (t, amount) := Step(s, op);
            Inv(t) && amount >= 0 && Approved(t) - Liabilities(t) == Approved(s) - Liabilities(s) + amount
  {
    match op {
      case DoCreate(caller, recipient, total, amounts) =>
        ApplyKeeps(s, caller, CreateOp(recipient, total, amounts));
      case DoConfirm(caller, id, index) =>
        ApplyKeeps(s, caller, ConfirmOp(id, index));
      case DoClaim(recipient, id) =>
        ClaimKeeps(s, recipient, id);
        var (t, r) := Claim(s, recipient, id);
        if r.Ok? {
          StoreGrant(s, t, id);
        }
      case DoBatch(caller, ops) =>
        SequenceKeeps(s, caller, ops);
    }
  }

  /**
   * Over every run from an empty model: each stored grant passes the
   * consistency check, and what was approved is exactly what was paid plus
   * what is still owed.
   */
  lemma {:induction false} RunConserves(governance: nat, ops: seq<Op>)
    ensures var (t, paid) := Run(Initial(governance), ops);
            && Inv(t) && (forall id :: id in t.grants ==> Consistent(t.grants[id]))
            && Approved(t) == paid + Liabilities(t)
  {
    if ops == [] {
      assert Totals(Initial(governance)) == map[] && Owing(Initial(governance)) == map[];
    } else {
      var n := |ops| - 1;
      RunConserves(governance, ops[..n]);
      StepKeeps(Run(Initial(governance), ops[..n]).0, ops[n]);
    }
    var (t, paid) := Run(Initial(governance), ops);
    forall id | id in t.grants
      ensures Consistent(t.grants[id])
    {
      GrantOkPassesCheck(t.grants[id]);
    }
  }

  // ---------------------------------------------------------------------
  // The model as an object
  // ---------------------------------------------------------------------

  class Model {
    var governance: nat
    var nextId: nat
    var grants: map<nat, Grant>

    constructor (governance: nat)
      ensures View() == Initial(governance)
    {
      this.governance := governance;
      nextId, grants := 0, map[];
    }

    /** `self.clone()` */
    constructor Clone(other: Model)
      ensures View() == other.View()
    {
      governance, nextId, grants := other.governance, other.nextId, other.grants;
    }

    function View(): State
      reads this
    {
      State(governance, nextId, grants)
    }

    method CreateGrant(caller: nat, recipient: nat, total: i128, amounts: seq<i128>)
      returns (r: Result<nat, GrantsError>)
      modifies this
      ensures (View(), r) == Create(old(View()), caller, recipient, total, amounts)
    {
      if caller != governance {
        return Err(Unauthorized);
      }
      if total <= 0 {
        return Err(InvalidTotalAmount);
      }
      if amounts == [] {
        return Err(NoMilestones);
      }
      var sum: i128 := 0;
      assert amounts[0..] == amounts;
      for i := 0 to |amounts|
        invariant ScanAmounts(0, amounts) == ScanAmounts(sum, amounts[i..])
      {
        assert amounts[i..][1..] == amounts[i + 1..];
        if amounts[i] <= 0 {
          return Err(InvalidMilestoneAmount);
        }
        if !FitsI128(sum + amounts[i]) {
          return Err(SumMismatch);
        }
        sum := sum + amounts[i];
      }
      if sum != total {
        return Err(SumMismatch);
      }
      var id := nextId;
      nextId := nextId + 1;
      grants := grants[id := Grant(recipient, total, Schedule(amounts), 0)];
      return Ok(id);
    }

    method ConfirmMilestone(caller: nat, id: nat, index: nat) returns (r: Result<(), GrantsError>)
      modifies this`grants
      ensures (View(), r) == Confirm(old(View()), caller, id, index)
    {
      if caller != governance {
        return Err(Unauthorized);
      }
      if id !in grants {
        return Err(GrantNotFound);
      }
      var g := grants[id];
      if index >= |g.milestones| {
        return Err(InvalidMilestoneIndex);
      }
      for k := 0 to index
        invariant forall j :: 0 <= j < k ==> g.milestones[j].confirmed
      {
        if !g.milestones[k].confirmed {
          return Err(OutOfOrder);
        }
      }
      var m := g.milestones[index];
      if m.confirmed {
        return Err(AlreadyConfirmed);
      }
      g := g.(milestones := g.milestones[index := m.(confirmed := true)]);
      grants := grants[id := g];
      if AddRefused(g.claimable, m.amount) {
        return Err(SumMismatch);
      }
      g := g.(claimable := g.claimable + m.amount);
      grants := grants[id := g];
      assert grants == old(grants)[id := g];
      return Ok(());
    }

    method ClaimGrant(recipient: nat, id: nat) returns (r: Result<i128, GrantsError>)
      modifies this`grants
      ensures (View(), r) == Claim(old(View()), recipient, id)
    {
      if id !in grants {
        return Err(GrantNotFound);
      }
      var g := grants[id];
      if g.recipient != recipient {
        return Err(NotRecipient);
      }
      var amount := g.claimable;
      if amount <= 0 {
        return Err(NothingToClaim);
      }
      var ms := MarkClaimed(g.milestones);
      grants := grants[id := g.(milestones := ms, claimable := 0)];
      return Ok(amount);
    }

    method ApplyBatch(caller: nat, ops: seq<GrantsOp>) returns (r: Result<(), GrantsError>)
      modifies this
      ensures (View(), r) == Batch(old(View()), caller, ops)
    {
      if caller != governance {
        return Err(Unauthorized);
      }
      if |ops| > MAX_BATCH_OPS {
        return Err(BatchTooLarge);
      }
      var staged := new Model.Clone(this);
      for i := 0 to |ops|
        invariant fresh(staged)
        invariant View() == old(View())
        invariant (staged.View(), None) == Sequence(old(View()), caller, ops[..i])
      {
        assert ops[..i + 1][..i] == ops[..i];
        var error: Option<GrantsError> := None;
        match ops[i] {
          case CreateOp(recipient, total, amounts) =>
            var created := staged.CreateGrant(caller, recipient, total, amounts);
            error := if created.Err? then Some(created.error) else None;
          case ConfirmOp(id, index) =>
            var confirmed := staged.ConfirmMilestone(caller, id, index);
            error := if confirmed.Err? then Some(confirmed.error) else None;
        }
        if error.Some? {
          StopsAt(old(View()), caller, ops, i + 1);
          return Err(BatchFailed(i, error.value));
        }
      }
      assert ops[..|ops|] == ops;
      governance, nextId, grants := staged.governance, staged.nextId, staged.grants;
      return Ok(());
    }

    /** The saturating fold over all grants is the true sum, capped at the largest i128. */
    method AccountedLiabilities() returns (r: i128)
      requires Inv(View())
      ensures r == SaturatingI128(Liabilities(View()))
    {
      r := 0;
      var rest := grants.Keys;
      ghost var owing := Owing(View());
      assert owing.Keys == rest;
      while rest != {}
        invariant rest <= owing.Keys
        invariant r == SaturatingI128(MapSum(owing - rest)) && MapSum(owing - rest) >= 0
      {
        var id :| id in rest;
        var owed := SaturatedOwed(grants[id].milestones);
        ghost var done := owing - rest;
        rest := rest - {id};
        assert owing - rest == done[id := owing[id]];
        MapSumUpdate(done, id, owing[id]);
        r := SaturatingI128(r + owed);
      }
      assert owing - {} == owing;
    }

    /** A rescue never leaves the contract with less than it owes. */
    method Rescue(caller: nat, to: nat, amount: i128, liveBalance: i128) returns (r: Result<i128, GrantsError>)
      requires Inv(View())
      ensures r.Ok? <==> && caller == governance && to == governance && amount > 0
                         && amount <= liveBalance - SaturatingI128(Liabilities(View()))
      ensures r.Ok? && Liabilities(View()) <= I128_MAX ==>
                liveBalance - amount == Liabilities(View()) + r.value && r.value >= 0
    {
      if caller != governance {
        return Err(Unauthorized);
      }
      if to != governance {
        return Err(Unauthorized);
      }
      if amount <= 0 {
        return Err(InvalidRescueAmount);
      }
      var owed := AccountedLiabilities();
      LiabilitiesNonNegative(View());
      var excess := SaturatingI128(liveBalance - owed);
      if amount > excess {
        return Err(NoExcessFunds);
      }
      return Ok(excess - amount);
    }
  }

  lemma {:induction false} StopsAt(s: State, caller: nat, ops: seq<GrantsOp>, n: nat)
    requires n <= |ops| && Sequence(s, caller, ops[..n]).1.Some?
    ensures Sequence(s, caller, ops).1 == Sequence(s, caller, ops[..n]).1
    decreases |ops| - n
  {
    if n < |ops| {
      assert ops[..n + 1][..n] == ops[..n];
      StopsAt(s, caller, ops, n + 1);
    } else {
      assert ops[..n] == ops;
    }
  }

  lemma LiabilitiesNonNegative(s: State)
    requires Inv(s)
    ensures Liabilities(s) >= 0
  {
    forall id | id in Owing(s)
      ensures Owing(s)[id] >= 0
    {
      UnclaimedBounds(s.grants[id].milestones);
    }
    MapSumNonNegative(Owing(s));
  }

  method SaturatedOwed(ms: seq<Milestone>) returns (r: i128)
    requires Positive(ms)
    ensures r == SaturatingI128(Owed(ms)) && Owed(ms) >= 0
  {
    r := 0;
    for i := 0 to |ms|
      invariant r == SaturatingI128(Owed(ms[..i])) && Owed(ms[..i]) >= 0
    {
      assert ms[..i + 1][..i] == ms[..i];
      if !ms[i].claimed {
        r := SaturatingI128(r + ms[i].amount);
      }
    }
    assert ms[..|ms|] == ms;
  }
}
