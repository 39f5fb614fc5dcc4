/**
 * The on-chain grants contract: milestones, payout fees, and the reentrancy
 * lock. A token may call back into the contract during a transfer, so a claim
 * or a sweep carries the calls made from inside its transfer.
 */
module OnchainGrants {
  import opened Results
  import opened Sums
  import opened GrantRecords
  import Fee
  import Model = GrantsModel

  datatype ContractError =
    | Unauthorized
    | GrantNotFound
    | NoMilestones
    | MilestoneSumMismatch
    | InvalidMilestoneAmount
    | InvalidTotalAmount
    | InvalidMilestoneIndex
    | MilestoneAlreadyConfirmed
    | MilestoneOutOfOrder
    | NotRecipient
    | NothingToClaim
    | InvalidFeeBps
    | InvalidToken
    | TreasuryNotConfigured
    | ArithmeticError
    | RecipientNotAllowed
    | ReentrancyDetected
    | Trapped

  datatype State = State(
    governance: nat,
    token: nat,
    nextId: u64,
    feeRegistry: Option<nat>,
    treasury: Option<nat>,
    grants: map<nat, Grant>,
    accrued: i128,
    allowed: set<nat>,
    locked: bool)

  /** What one call moved: claimed gross, paid to recipients, kept as fees, swept to the treasury. */
  datatype Flow = Flow(gross: int, net: int, fee: int, swept: int)

  const STILL: Flow := Flow(0, 0, 0, 0)

  datatype Op =
    | Create(caller: nat, recipient: nat, total: i128, amounts: seq<i128>)
    | Confirm(caller: nat, id: nat, index: nat)
    | Claim(recipient: nat, id: nat, feeBps: nat, inside: seq<Op>, transferOk: bool)
    | Sweep(token: nat, inside: seq<Op>, transferOk: bool)
    | SetFeeConfig(caller: nat, treasury: nat, registry: nat)
    | SetAllowed(caller: nat, recipient: nat, allow: bool)

  type Outcome = (State, Result<int, ContractError>, Flow)

  function Fail(s: State, e: ContractError): Outcome {
    (s, Err(e), STILL)
  }

  /** The first bad amount, adding up from the left. */
  function ScanError(amounts: seq<i128>, total: i128): Option<ContractError> {
    match Model.ScanAmounts(0, amounts)
    case Err(e) => Some(if e.InvalidMilestoneAmount? then InvalidMilestoneAmount else MilestoneSumMismatch)
    case Ok(sum) => if sum != total then Some(MilestoneSumMismatch) else None
  }

  function DoCreate(s: State, caller: nat, recipient: nat, total: i128, amounts: seq<i128>): Outcome {
    if caller != s.governance then Fail(s, Unauthorized)
    else if total <= 0 then Fail(s, InvalidTotalAmount)
    else if amounts == [] then Fail(s, NoMilestones)
    else if recipient !in s.allowed then Fail(s, RecipientNotAllowed)
    else if ScanError(amounts, total).Some? then Fail(s, ScanError(amounts, total).value)
    else if s.nextId == U64_MAX then Fail(s, ArithmeticError)
    else
      (s.(nextId := s.nextId + 1,
          grants := s.grants[s.nextId := Grant(recipient, total, Model.Schedule(amounts), 0)]), Ok(s.nextId), STILL)
  }

  function DoConfirm(s: State, caller: nat, id: nat, index: nat): Outcome {
    if caller != s.governance then Fail(s, Unauthorized)
    else if id !in s.grants then Fail(s, GrantNotFound)
    else
      var g := s.grants[id];
      if index >= |g.milestones| then Fail(s, InvalidMilestoneIndex)
      else if exists k :: 0 <= k < index && !g.milestones[k].confirmed then Fail(s, MilestoneOutOfOrder)
      else if g.milestones[index].confirmed then Fail(s, MilestoneAlreadyConfirmed)
      else if !FitsI128(g.claimable + g.milestones[index].amount) then Fail(s, ArithmeticError)
      else
        var ms := g.milestones[index := g.milestones[index].(confirmed := true)];
        (s.(grants := s.grants[id := g.(milestones := ms, claimable := g.claimable + g.milestones[index].amount)]),
         Ok(0), STILL)
  }

  /** The fee rate in force: none without a registry, and never above the ceiling. */
  function FeeRate(s: State, feeBps: nat): Result<nat, ContractError> {
    if s.feeRegistry.None? then Ok(0)
    else if feeBps > Fee.MAX_FEE_BPS then Err(InvalidFeeBps)
    else Ok(feeBps)
  }

  /** `(net, fee)` for a gross amount. */
  function Quote(s: State, gross: i128, feeBps: nat): Result<(i128, i128), ContractError> {
    if gross < 0 then Err(InvalidTotalAmount)
    else
      match FeeRate(s, feeBps)
      case Err(e) => Err(e)
      case Ok(rate) =>
        match Fee.AssessFee(gross, rate)
        case None => Err(ArithmeticError)
        case Some(quote) => Ok(quote)
  }

  /** The books as a claim leaves them before it transfers anything, with the lock held. */
  function Settle(s: State, id: nat, fee: i128): State
    requires id in s.grants && FitsI128(s.accrued + fee)
  {
    var g := s.grants[id];
    s.(locked := true, accrued := s.accrued + fee,
       grants := s.grants[id := g.(milestones := ClaimAll(g.milestones), claimable := 0)])
  }

  function DoClaim(s: State, recipient: nat, id: nat, feeBps: nat, inside: seq<Op>, transferOk: bool): Outcome
    decreases inside, 2
  {
    if s.locked then Fail(s, ReentrancyDetected)
    else if id !in s.grants then Fail(s, GrantNotFound)
    else
      var g := s.grants[id];
      if g.recipient != recipient then Fail(s, NotRecipient)
      else if g.claimable <= 0 then Fail(s, NothingToClaim)
      else
        match Quote(s, g.claimable, feeBps)
        case Err(e) => Fail(s, e)
        case Ok((net, fee)) =>
          if !FitsI128(s.accrued + fee) then Fail(s, ArithmeticError)
          else
            var effects := Settle(s, id, fee);
            var (after, moved) := if net > 0 then Inside(effects, inside) else (effects, STILL);
            if net > 0 && !transferOk then Fail(s, Trapped)
            else (after.(locked := false), Ok(net), Add(Flow(g.claimable, net, fee, 0), moved))
  }

  function DoSweep(s: State, token: nat, inside: seq<Op>, transferOk: bool): Outcome
    decreases inside, 2
  {
    if s.locked then Fail(s, ReentrancyDetected)
    else if token != s.token then Fail(s, InvalidToken)
    else if s.accrued == 0 then (s, Ok(0), STILL)
    else if s.treasury.None? then Fail(s, TreasuryNotConfigured)
    else
      var (after, moved) := Inside(s.(locked := true, accrued := 0), inside);
      if !transferOk then Fail(s, Trapped)
      else (after.(locked := false), Ok(s.accrued), Add(Flow(0, 0, 0, s.accrued), moved))
  }

  function Step(s: State, op: Op): Outcome
    decreases op, 1
  {
    match op
    case Create(caller, recipient, total, amounts) => DoCreate(s, caller, recipient, total, amounts)
    case Confirm(caller, id, index) => DoConfirm(s, caller, id, index)
    case Claim(recipient, id, feeBps, inside, transferOk) => DoClaim(s, recipient, id, feeBps, inside, transferOk)
    case Sweep(token, inside, transferOk) => DoSweep(s, token, inside, transferOk)
    case SetFeeConfig(caller, treasury, registry) =>
      if caller != s.governance then Fail(s, Unauthorized)
      else (s.(treasury := Some(treasury), feeRegistry := Some(registry)), Ok(0), STILL)
    case SetAllowed(caller, recipient, allow) =>
      if caller != s.governance then Fail(s, Unauthorized)
      else (s.(allowed := if allow then s.allowed + {recipient} else s.allowed - {recipient}), Ok(0), STILL)
  }

  /** Calls one after the other; a failing one leaves the state as it found it. */
  function Inside(s: State, ops: seq<Op>): (State, Flow)
    decreases ops, 1
  {
    if ops == [] then (s, STILL)
    else
      var (t, r, f) := Step(s, ops[0]);
      var (u, g) := Inside(t, ops[1..]);
      (u, Add(f, g))
  }

  function Add(a: Flow, b: Flow): Flow {
    Flow(a.gross + b.gross, a.net + b.net, a.fee + b.fee, a.swept + b.swept)
  }

  // ---------------------------------------------------------------------
  // Invariant and conservation
  // ---------------------------------------------------------------------

  ghost predicate Inv(s: State) {
    && s.accrued >= 0
    && forall id :: id in s.grants ==> id < s.nextId && Model.GrantOk(s.grants[id])
  }

  /** The same grants, as the plain model keeps them. */
  function AsModel(s: State): Model.State {
    Model.State(s.governance, s.nextId, s.grants)
  }

  /** Approved and not claimed yet. */
  ghost function Committed(s: State): int {
    Model.Approved(AsModel(s)) - Model.Liabilities(AsModel(s))
  }

  /** What moving from one state to another with the given flow means for the books. */
  ghost predicate Accounts(s: State, t: State, f: Flow) {
    && Inv(t)
    && f.gross == f.net + f.fee && f.gross >= 0 && f.net >= 0 && f.fee >= 0 && f.swept >= 0
    && t.accrued == s.accrued + f.fee - f.swept
    && Committed(t) == Committed(s) + f.gross
  }

  /** A call also gives the lock back as it found it, and moves no money while the lock is held. */
  ghost predicate Conserves(s: State, t: State, f: Flow) {
    Accounts(s, t, f) && t.locked == s.locked && (s.locked ==> f == STILL)
  }

  lemma Chain(s: State, t: State, u: State, f: Flow, g: Flow)
    requires Accounts(s, t, f) && Accounts(t, u, g)
    ensures Accounts(s, u, Add(f, g))
  {
  }

  lemma AddStill(f: Flow)
    ensures Add(f, STILL) == f
  {
  }

  lemma Then(s: State, t: State, u: State, f: Flow, g: Flow)
    requires Conserves(s, t, f) && Conserves(t, u, g)
    ensures Conserves(s, u, Add(f, g))
  {
    Chain(s, t, u, f, g);
    AddStill(f);
  }

  lemma Unlock(s: State, t: State, f: Flow)
    requires Accounts(s, t, f)
    ensures Accounts(s, t.(locked := false), f)
  {
    assert AsModel(t.(locked := false)) == AsModel(t);
  }

  lemma SameBooks(s: State, t: State)
    requires Inv(s) && t.nextId == s.nextId && t.grants == s.grants && t.accrued == s.accrued
    ensures Accounts(s, t, STILL)
  {
    assert Model.Totals(AsModel(t)) == Model.Totals(AsModel(s));
    assert Model.Owing(AsModel(t)) == Model.Owing(AsModel(s));
  }

  /** A step the plain model also takes accounts for itself. */
  lemma FollowsModel(s: State, t: State, caller: nat, op: Model.GrantsOp)
    requires Inv(s) && t.accrued == s.accrued
    requires AsModel(t) == Model.Apply(AsModel(s), caller, op).0
    ensures Accounts(s, t, STILL)
  {
    Model.ApplyKeeps(AsModel(s), caller, op);
  }

  lemma CreateAccounts(s: State, caller: nat, recipient: nat, total: i128, amounts: seq<i128>)
    requires Inv(s)
    ensures var (t, r, f) := DoCreate(s, caller, recipient, total, amounts);
            Accounts(s, t, f) && t.locked == s.locked && (r.Err? ==> t == s) && f == STILL
  {
    SameBooks(s, s);
    var (t, r, f) := DoCreate(s, caller, recipient, total, amounts);
    if r.Ok? {
      FollowsModel(s, t, caller, Model.CreateOp(recipient, total, amounts));
    }
  }

  lemma ConfirmAccounts(s: State, caller: nat, id: nat, index: nat)
    requires Inv(s)
    ensures var (t, r, f) := DoConfirm(s, caller, id, index);
            Accounts(s, t, f) && t.locked == s.locked && (r.Err? ==> t == s) && f == STILL
  {
    SameBooks(s, s);
    ConfirmAsModel(s, caller, id, index);
    FollowsModel(s, DoConfirm(s, caller, id, index).0, caller, Model.ConfirmOp(id, index));
  }

  /** The contract confirms exactly when the plain model does, with the same grants after, and never overflows. */
  lemma ConfirmAsModel(s: State, caller: nat, id: nat, index: nat)
    requires Inv(s)
    ensures var (t, r, f) := DoConfirm(s, caller, id, index);
            var (m, q) := Model.Confirm(AsModel(s), caller, id, index);
            && (r.Ok? <==> q.Ok?) && m == AsModel(t) && r != Err(ArithmeticError)
  {
    Model.ConfirmKeeps(AsModel(s), caller, id, index);
  }

  /** The books right before a claim's transfer already account for all of it. */
  lemma SettleAccounts(s: State, recipient: nat, id: nat, net: i128, fee: i128)
    requires Inv(s) && id in s.grants && s.grants[id].recipient == recipient && s.grants[id].claimable > 0
    requires s.grants[id].claimable == net + fee && net >= 0 && fee >= 0 && FitsI128(s.accrued + fee)
    ensures Accounts(s, Settle(s, id, fee), Flow(s.grants[id].claimable, net, fee, 0))
  {
    var t := Settle(s, id, fee);
    var m, n := AsModel(s), AsModel(t);
    SettleAsModel(s, recipient, id, fee);
    ClaimCommits(m, n, recipient, id);
    AsModelKeeps(t);
  }

  lemma AsModelKeeps(s: State)
    requires s.accrued >= 0 && Model.Inv(AsModel(s))
    ensures Inv(s)
  {
  }

  /** A settled claim is the plain model's claim. */
  lemma SettleAsModel(s: State, recipient: nat, id: nat, fee: i128)
    requires id in s.grants && s.grants[id].recipient == recipient && s.grants[id].claimable > 0
    requires FitsI128(s.accrued + fee)
    ensures Model.Claim(AsModel(s), recipient, id) == (AsModel(Settle(s, id, fee)), Ok(s.grants[id].claimable))
  {
  }

  /** A claim of the plain model moves the claimed amount from what is owed. */
  lemma ClaimCommits(m: Model.State, n: Model.State, recipient: nat, id: nat)
    requires Model.Inv(m) && id in m.grants && m.grants[id].recipient == recipient && m.grants[id].claimable > 0
    requires Model.Claim(m, recipient, id) == (n, Ok(m.grants[id].claimable))
    ensures Model.Inv(n)
    ensures Model.Approved(n) - Model.Liabilities(n) == Model.Approved(m) - Model.Liabilities(m) + m.grants[id].claimable
  {
    Model.ClaimKeeps(m, recipient, id);
    Model.StoreGrant(m, n, id);
  }

  lemma {:induction false} StepConserves(s: State, op: Op)
    requires Inv(s)
    ensures var (t, r, f) := Step(s, op);
            Conserves(s, t, f) && (r.Err? ==> t == s && f == STILL)
    decreases op, 1
  {
    SameBooks(s, s);
    match op {
      case Create(caller, recipient, total, amounts) =>
        CreateAccounts(s, caller, recipient, total, amounts);
      case Confirm(caller, id, index) =>
        ConfirmAccounts(s, caller, id, index);
      case Claim(recipient, id, feeBps, inside, transferOk) =>
        ClaimConserves(s, recipient, id, feeBps, inside, transferOk);
      case Sweep(token, inside, transferOk) =>
        SweepConserves(s, token, inside, transferOk);
      case SetFeeConfig(_, treasury, registry) =>
        SameBooks(s, s.(treasury := Some(treasury), feeRegistry := Some(registry)));
      case SetAllowed(_, recipient, allow) =>
        SameBooks(s, s.(allowed := if allow then s.allowed + {recipient} else s.allowed - {recipient}));
    }
  }

  lemma QuoteMeaning(s: State, gross: i128, feeBps: nat)
    ensures var q := Quote(s, gross, feeBps);
            && (q.Ok? <==> gross >= 0 && FeeRate(s, feeBps).Ok?)
            && (q.Ok? ==>
                  var rate := FeeRate(s, feeBps).value;
                  && q.value.1 == gross * rate / 10_000
                  && q.value.0 == gross - q.value.1 && 0 <= q.value.1 <= gross / 10)
  {
    if gross >= 0 && FeeRate(s, feeBps).Ok? {
      Fee.AssessFeeExact(gross, FeeRate(s, feeBps).value);
    }
  }

  lemma {:induction false} ClaimConserves(s: State, recipient: nat, id: nat, feeBps: nat, inside: seq<Op>,
                                         transferOk: bool)
    requires Inv(s)
    ensures var (t, r, f) := DoClaim(s, recipient, id, feeBps, inside, transferOk);
            Conserves(s, t, f) && (r.Err? ==> t == s && f == STILL)
    decreases inside, 2
  {
    SameBooks(s, s);
    var (t, r, f) := DoClaim(s, recipient, id, feeBps, inside, transferOk);
    if r.Ok? {
      var gross := s.grants[id].claimable;
      QuoteMeaning(s, gross, feeBps);
      var (net, fee) := Quote(s, gross, feeBps).value;
      var effects := Settle(s, id, fee);
      SettleAccounts(s, recipient, id, net, fee);
      var (after, moved) := if net > 0 then Inside(effects, inside) else (effects, STILL);
      if net > 0 {
        InsideConserves(effects, inside);
      } else {
        SameBooks(effects, effects);
      }
      Chain(s, effects, after, Flow(gross, net, fee, 0), moved);
      Unlock(s, after, f);
    }
  }

  lemma {:induction false} SweepConserves(s: State, token: nat, inside: seq<Op>, transferOk: bool)
    requires Inv(s)
    ensures var (t, r, f) := DoSweep(s, token, inside, transferOk);
            Conserves(s, t, f) && (r.Err? ==> t == s && f == STILL)
    decreases inside, 2
  {
    SameBooks(s, s);
    var (t, r, f) := DoSweep(s, token, inside, transferOk);
    if r.Ok? && s.accrued != 0 {
      var effects := s.(locked := true, accrued := 0);
      assert AsModel(effects) == AsModel(s);
      InsideConserves(effects, inside);
      var (after, moved) := Inside(effects, inside);
      Chain(s, effects, after, Flow(0, 0, 0, s.accrued), moved);
      Unlock(s, after, f);
    }
  }

  lemma {:induction false} InsideConserves(s: State, ops: seq<Op>)
    requires Inv(s)
    ensures var (t, f) := Inside(s, ops); Conserves(s, t, f)
    decreases ops, 1
  {
    if ops == [] {
      SameBooks(s, s);
    } else {
      StepConserves(s, ops[0]);
      var (t, r, f) := Step(s, ops[0]);
      InsideConserves(t, ops[1..]);
      var (u, g) := Inside(t, ops[1..]);
      Then(s, t, u, f, g);
    }
  }

  function Initial(governance: nat, token: nat): State {
    State(governance, token, 0, None, None, map[], 0, {}, false)
  }

  /**
   * Fee conservation over every run, re-entrant calls included: everything
   * claimed was paid out, is still accrued, or was swept; and everything
   * approved was claimed or is still owed.
   */
  lemma FeesConserved(governance: nat, token: nat, ops: seq<Op>)
    ensures var (t, f) := Inside(Initial(governance, token), ops);
            && Inv(t) && !t.locked
            && f.gross == f.net + t.accrued + f.swept
            && Model.Approved(AsModel(t)) == f.gross + Model.Liabilities(AsModel(t))
  {
    var s := Initial(governance, token);
    assert Model.Totals(AsModel(s)) == map[] && Model.Owing(AsModel(s)) == map[];
    InsideConserves(s, ops);
  }

  /** While a transfer is in flight, nothing nested in it can claim or sweep, however deep. */
  lemma LockedMovesNothing(s: State, ops: seq<Op>)
    requires Inv(s) && s.locked
    ensures var (t, f) := Inside(s, ops);
            f == STILL && t.accrued == s.accrued && t.locked
  {
    InsideConserves(s, ops);
  }

  /**
   * A claim pays the floor-rounded net of the confirmed amount and keeps the
   * rest as fee, whatever the token calls back into; and unless one of those
   * calls confirms another milestone, claiming again finds nothing.
   */
  lemma ClaimPaysOnce(s: State, recipient: nat, id: nat, feeBps: nat, inside: seq<Op>)
    requires Inv(s) && DoClaim(s, recipient, id, feeBps, inside, true).1.Ok?
    ensures var (t, r, f) := DoClaim(s, recipient, id, feeBps, inside, true);
            && (var rate := FeeRate(s, feeBps).value;
                var gross := s.grants[id].claimable;
                var fee := gross * rate / 10_000;
                r.value == gross - fee && f == Flow(gross, r.value, fee, 0))
            && ((forall i :: 0 <= i < |inside| ==> !inside[i].Confirm?) ==>
                  DoClaim(t, recipient, id, feeBps, inside, true).1 == Err(NothingToClaim))
  {
    var gross := s.grants[id].claimable;
    QuoteMeaning(s, gross, feeBps);
    ClaimEnds(s, recipient, id, feeBps, inside);
  }

  lemma ClaimEnds(s: State, recipient: nat, id: nat, feeBps: nat, inside: seq<Op>)
    requires Inv(s) && DoClaim(s, recipient, id, feeBps, inside, true).1.Ok?
    ensures var (t, r, f) := DoClaim(s, recipient, id, feeBps, inside, true);
            var gross := s.grants[id].claimable;
            && Quote(s, gross, feeBps).Ok?
            && var (net, fee) := Quote(s, gross, feeBps).value;
            && r.value == net && f == Flow(gross, net, fee, 0)
            && ((forall i :: 0 <= i < |inside| ==> !inside[i].Confirm?) ==>
                  DoClaim(t, recipient, id, feeBps, inside, true).1 == Err(NothingToClaim))
  {
    var gross := s.grants[id].claimable;
    QuoteMeaning(s, gross, feeBps);
    var (net, fee) := Quote(s, gross, feeBps).value;
    var effects := Settle(s, id, fee);
    SettleAccounts(s, recipient, id, net, fee);
    InsideConserves(effects, inside);
    AddStill(Flow(gross, net, fee, 0));
    if forall i :: 0 <= i < |inside| ==> !inside[i].Confirm? {
      InsideKeepsGrant(effects, inside, id);
    }
  }

  /** A nested call other than a confirmation leaves every stored grant alone while the lock is held. */
  lemma StepKeepsGrant(s: State, op: Op, id: nat)
    requires s.locked && Inv(s) && id in s.grants && !op.Confirm?
    ensures var t := Step(s, op).0; id in t.grants && t.grants[id] == s.grants[id]
  {
  }

  lemma {:induction false} InsideKeepsGrant(s: State, ops: seq<Op>, id: nat)
    requires s.locked && Inv(s) && id in s.grants
    requires forall i :: 0 <= i < |ops| ==> !ops[i].Confirm?
    ensures var t := Inside(s, ops).0; id in t.grants && t.grants[id] == s.grants[id]
    decreases |ops|
  {
    if ops != [] {
      StepConserves(s, ops[0]);
      StepKeepsGrant(s, ops[0], id);
      InsideKeepsGrant(Step(s, ops[0]).0, ops[1..], id);
    }
  }

  // ---------------------------------------------------------------------
  // The contract
  // ---------------------------------------------------------------------

  class Contract {
    var governance: nat
    var token: nat
    var nextId: u64
    var feeRegistry: Option<nat>
    var treasury: Option<nat>
    var grants: map<nat, Grant>
    var accrued: i128
    var allowed: set<nat>
    var locked: bool

    constructor (governance: nat, token: nat)
      ensures View() == Initial(governance, token)
    {
      this.governance, this.token := governance, token;
      nextId, feeRegistry, treasury := 0, None, None;
      grants, accrued, allowed, locked := map[], 0, {}, false;
    }

    function View(): State
      reads this
    {
      State(governance, token, nextId, feeRegistry, treasury, grants, accrued, allowed, locked)
    }

    /** What the host does when a call fails after it has written something. */
    method Restore(s: State)
      modifies this
      ensures View() == s
    {
      governance, token, nextId, feeRegistry, treasury := s.governance, s.token, s.nextId, s.feeRegistry, s.treasury;
      grants, accrued, allowed, locked := s.grants, s.accrued, s.allowed, s.locked;
    }

    method CreateGrant(caller: nat, recipient: nat, total: i128, amounts: seq<i128>)
      returns (r: Result<int, ContractError>)
      modifies this
      ensures (View(), r, STILL) == DoCreate(old(View()), caller, recipient, total, amounts)
    {
      if caller != governance {
        return Err(Unauthorized);
      }
      if total <= 0 {
        return Err(InvalidTotalAmount);
      }
      if amounts == [] {
        return Err(NoMilestones);
      }
      if recipient !in allowed {
        return Err(RecipientNotAllowed);
      }
      var sum: i128 := 0;
      assert amounts[0..] == amounts;
      for i := 0 to |amounts|
        invariant Model.ScanAmounts(0, amounts) == Model.ScanAmounts(sum, amounts[i..])
      {
        assert amounts[i..][1..] == amounts[i + 1..];
        if amounts[i] <= 0 {
          return Err(InvalidMilestoneAmount);
        }
        if !FitsI128(sum + amounts[i]) {
          return Err(MilestoneSumMismatch);
        }
        sum := sum + amounts[i];
      }
      if sum != total {
        return Err(MilestoneSumMismatch);
      }
      var id := nextId;
      if id == U64_MAX {
        return Err(ArithmeticError);
      }
      nextId := id + 1;
      grants := grants[id := Grant(recipient, total, Model.Schedule(amounts), 0)];
      return Ok(id);
    }

    method ConfirmMilestone(caller: nat, id: nat, index: nat) returns (r: Result<int, ContractError>)
      modifies this`grants
      ensures (View(), r, STILL) == DoConfirm(old(View()), caller, id, index)
    {
      if caller != governance {
        return Err(Unauthorized);
      }
      if id !in grants {
        return Err(GrantNotFound);
      }
      var g := grants[id];
      if index >= |g.milestones| {
        return Err(InvalidMilestoneIndex);
      }
      for k := 0 to index
        invariant forall j :: 0 <= j < k ==> g.milestones[j].confirmed
      {
        if !g.milestones[k].confirmed {
          return Err(MilestoneOutOfOrder);
        }
      }
      var m := g.milestones[index];
      if m.confirmed {
        return Err(MilestoneAlreadyConfirmed);
      }
      if !FitsI128(g.claimable + m.amount) {
        return Err(ArithmeticError);
      }
      g := g.(claimable := g.claimable + m.amount);
      g := g.(milestones := g.milestones[index := m.(confirmed := true)]);
      grants := grants[id := g];
      return Ok(0);
    }

    method QuotePayout(gross: i128, feeBps: nat) returns (r: Result<(i128, i128), ContractError>)
      ensures r == Quote(View(), gross, feeBps)
      ensures r.Ok? ==> r.value.0 + r.value.1 == gross && r.value.0 >= 0 && r.value.1 >= 0
    {
      QuoteMeaning(View(), gross, feeBps);
      if gross < 0 {
        return Err(InvalidTotalAmount);
      }
      var rate := 0;
      if feeRegistry.Some? {
        if feeBps > Fee.MAX_FEE_BPS {
          return Err(InvalidFeeBps);
        }
        rate := feeBps;
      }
      var split := Fee.AssessFee(gross, rate);
      return if split.None? then Err(ArithmeticError) else Ok(split.value);
    }

    /** Effects first, then the transfer with the lock held, then the lock is given back. */
    method ClaimGrant(recipient: nat, id: nat, feeBps: nat, inside: seq<Op>, transferOk: bool)
      returns (r: Result<int, ContractError>, moved: Flow)
      modifies this
      ensures (View(), r, moved) == DoClaim(old(View()), recipient, id, feeBps, inside, transferOk)
      decreases inside, 2
    {
      var before := View();
      moved := STILL;
      if locked {
        return Err(ReentrancyDetected), STILL;
      }
      locked := true;
      if id !in grants {
        locked := false;
        return Err(GrantNotFound), STILL;
      }
      var g := grants[id];
      if g.recipient != recipient {
        locked := false;
        return Err(NotRecipient), STILL;
      }
      var gross := g.claimable;
      if gross <= 0 {
        locked := false;
        return Err(NothingToClaim), STILL;
      }
      var quote := QuotePayout(gross, feeBps);
      if quote.Err? {
        locked := false;
        return Err(quote.error), STILL;
      }
      var (net, fee) := quote.value;
      if fee > 0 {
        if !FitsI128(accrued + fee) {
          locked := false;
          return Err(ArithmeticError), STILL;
        }
        accrued := accrued + fee;
      }
      var ms := MarkClaimed(g.milestones);
      grants := grants[id := g.(claimable := 0, milestones := ms)];
      assert View() == Settle(before, id, fee);
      if net > 0 {
        moved := CallBack(inside);
        if !transferOk {
          Restore(before);
          return Err(Trapped), STILL;
        }
      }
      locked := false;
      return Ok(net), Add(Flow(gross, net, fee, 0), moved);
    }

    method SweepFees(token: nat, inside: seq<Op>, transferOk: bool)
      returns (r: Result<int, ContractError>, moved: Flow)
      modifies this
      ensures (View(), r, moved) == DoSweep(old(View()), token, inside, transferOk)
      decreases inside, 2
    {
      var before := View();
      moved := STILL;
      if locked {
        return Err(ReentrancyDetected), STILL;
      }
      locked := true;
      if token != this.token {
        locked := false;
        return Err(InvalidToken), STILL;
      }
      var fees := accrued;
      if fees == 0 {
        locked := false;
        return Ok(0), STILL;
      }
      if treasury.None? {
        locked := false;
        return Err(TreasuryNotConfigured), STILL;
      }
      accrued := 0;
      assert View() == before.(locked := true, accrued := 0);
      moved := CallBack(inside);
      if !transferOk {
        Restore(before);
        return Err(Trapped), STILL;
      }
      locked := false;
      return Ok(fees), Add(Flow(0, 0, 0, fees), moved);
    }

    method ConfigureFees(caller: nat, treasury: nat, registry: nat) returns (r: Result<int, ContractError>)
      modifies this
      ensures (View(), r, STILL) == Step(old(View()), SetFeeConfig(caller, treasury, registry))
    {
      if caller != governance {
        return Err(Unauthorized);
      }
      this.treasury := Some(treasury);
      feeRegistry := Some(registry);
      return Ok(0);
    }

    method ScreenRecipient(caller: nat, recipient: nat, allow: bool) returns (r: Result<int, ContractError>)
      modifies this
      ensures (View(), r, STILL) == Step(old(View()), SetAllowed(caller, recipient, allow))
    {
      if caller != governance {
        return Err(Unauthorized);
      }
      allowed := if allow then allowed + {recipient} else allowed - {recipient};
      return Ok(0);
    }

    method Dispatch(op: Op) returns (r: Result<int, ContractError>, moved: Flow)
      modifies this
      ensures (View(), r, moved) == Step(old(View()), op)
      decreases op, 1
    {
      moved := STILL;
      match op {
        case Create(caller, recipient, total, amounts) => r := CreateGrant(caller, recipient, total, amounts);
        case Confirm(caller, id, index) => r := ConfirmMilestone(caller, id, index);
        case Claim(recipient, id, feeBps, inside, transferOk) =>
          r, moved := ClaimGrant(recipient, id, feeBps, inside, transferOk);
        case Sweep(token, inside, transferOk) => r, moved := SweepFees(token, inside, transferOk);
        case SetFeeConfig(caller, treasury, registry) => r := ConfigureFees(caller, treasury, registry);
        case SetAllowed(caller, recipient, allow) => r := ScreenRecipient(caller, recipient, allow);
      }
    }

    /** The token's calls back into the contract, one after the other. */
    method CallBack(ops: seq<Op>) returns (moved: Flow)
      modifies this
      ensures (View(), moved) == Inside(old(View()), ops)
      decreases ops, 1
    {
      if ops == [] {
        return STILL;
      }
      var r, first := Dispatch(ops[0]);
      var rest := CallBack(ops[1..]);
      return Add(first, rest);
    }
  }
}
