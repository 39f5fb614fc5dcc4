/**
 * The on-chain contract against the plain model: what happens in any run,
 * calls made from inside transfers included, is a sequence of events, and the
 * grants are those of the plain model after the same creations, confirmations
 * and claims.
 */
module OnchainHistory {
  import opened Results
  import opened History
  import opened GrantRecords
  import opened OnchainGrants
  import Fee
  import Model = GrantsModel
  import ModelHistory = GrantsHistory

  datatype Event =
    | OnGrants(op: Model.Op)
    | FeesSet(treasury: nat, registry: nat)
    | AllowedSet(recipient: nat, allow: bool)

  /** What one call makes happen, from the inside of its transfer too; a call that fails makes nothing happen. */
  function EventsOf(s: State, op: Op): seq<Event>
    decreases op, 1
  {
    match op
    case Create(caller, recipient, total, amounts) =>
      if DoCreate(s, caller, recipient, total, amounts).1.Err? then []
      else [OnGrants(Model.DoCreate(caller, recipient, total, amounts))]
    case Confirm(caller, id, index) =>
      if DoConfirm(s, caller, id, index).1.Err? then [] else [OnGrants(Model.DoConfirm(caller, id, index))]
    case Claim(recipient, id, feeBps, inside, ok) =>
      if DoClaim(s, recipient, id, feeBps, inside, ok).1.Err? then []
      else
        var (net, fee) := Quote(s, s.grants[id].claimable, feeBps).value;
        [OnGrants(Model.DoClaim(recipient, id))] + if net > 0 then EventsIn(Settle(s, id, fee), inside) else []
    case Sweep(token, inside, ok) =>
      if DoSweep(s, token, inside, ok).1.Err? || s.accrued == 0 then []
      else EventsIn(s.(locked := true, accrued := 0), inside)
    case SetFeeConfig(caller, treasury, registry) => if caller != s.governance then [] else [FeesSet(treasury, registry)]
    case SetAllowed(caller, recipient, allow) => if caller != s.governance then [] else [AllowedSet(recipient, allow)]
  }

  function EventsIn(s: State, ops: seq<Op>): seq<Event>
    decreases ops, 1
  {
    if ops == [] then []
    else EventsOf(s, ops[0]) + EventsIn(Step(s, ops[0]).0, ops[1..])
  }

  /** The creations, confirmations and claims among the events. */
  function GrantCalls(events: seq<Event>): seq<Model.Op> {
    if events == [] then []
    else
      var n := |events| - 1;
      GrantCalls(events[..n]) + if events[n].OnGrants? then [events[n].op] else []
  }

  function Fees(): Event -> bool {
    (e: Event) => e.FeesSet?
  }

  function Allows(a: nat): Event -> bool {
    (e: Event) => e.AllowedSet? && e.recipient == a
  }

  /** Going from `s` to `t` is what the events make of it. */
  ghost predicate Follows(s: State, t: State, events: seq<Event>) {
    && t.governance == s.governance && t.token == s.token
    && AsModel(t) == Model.Run(AsModel(s), GrantCalls(events)).0
    && (match Last(events, Fees())
        case Some(e) => e.FeesSet? && t.treasury == Some(e.treasury) && t.feeRegistry == Some(e.registry)
        case None => t.treasury == s.treasury && t.feeRegistry == s.feeRegistry)
    && (forall a :: a in t.allowed <==>
          match Last(events, Allows(a))
          case Some(e) => e.AllowedSet? && e.allow
          case None => a in s.allowed)
  }

  lemma {:induction false} GrantCallsConcat(a: seq<Event>, b: seq<Event>)
    ensures GrantCalls(a + b) == GrantCalls(a) + GrantCalls(b)
  {
    if b == [] {
      assert a + b == a;
    } else {
      var n := |b| - 1;
      assert (a + b)[..|a + b| - 1] == a + b[..n];
      GrantCallsConcat(a, b[..n]);
    }
  }

  lemma {:induction false} LastConcat(a: seq<Event>, b: seq<Event>, p: Event -> bool)
    ensures Last(a + b, p) == if Last(b, p).Some? then Last(b, p) else Last(a, p)
  {
    if b == [] {
      assert a + b == a;
    } else {
      var n := |b| - 1;
      assert (a + b)[..|a + b| - 1] == a + b[..n];
      LastConcat(a, b[..n], p);
    }
  }

  lemma FollowsOn(s: State, t: State, u: State, a: seq<Event>, b: seq<Event>)
    requires Follows(s, t, a) && Follows(t, u, b)
    ensures Follows(s, u, a + b)
  {
    GrantCallsConcat(a, b);
    ModelHistory.RunConcat(AsModel(s), GrantCalls(a), GrantCalls(b));
    LastConcat(a, b, Fees());
    forall x
      ensures Last(a + b, Allows(x)) == if Last(b, Allows(x)).Some? then Last(b, Allows(x)) else Last(a, Allows(x))
    {
      LastConcat(a, b, Allows(x));
    }
  }

  /** Lock and fee balance are not part of what the events describe. */
  lemma FollowsNothing(s: State, t: State)
    requires t == s.(locked := t.locked, accrued := t.accrued)
    ensures Follows(s, t, [])
  {
    assert AsModel(t) == AsModel(s);
  }

  lemma ThenUnlocked(s: State, t: State, u: State, a: seq<Event>, b: seq<Event>)
    requires Follows(s, t, a) && Follows(t, u, b)
    ensures Follows(s, u.(locked := false), a + b)
  {
    FollowsOn(s, t, u, a, b);
    FollowsNothing(u, u.(locked := false));
    FollowsOn(s, u, u.(locked := false), a + b, []);
    assert a + b + [] == a + b;
  }

  lemma OneGrantCall(s: State, t: State, op: Model.Op)
    requires !op.DoBatch? && t == s.(locked := t.locked, accrued := t.accrued, nextId := t.nextId, grants := t.grants)
    requires AsModel(t) == Model.Step(AsModel(s), op).0
    ensures Follows(s, t, [OnGrants(op)])
  {
    assert [OnGrants(op)][..0] == [];
    assert GrantCalls([OnGrants(op)]) == [op];
    ModelHistory.RunLast(AsModel(s), [op]);
    assert [op][..0] == [] && Model.Run(AsModel(s), []).0 == AsModel(s);
  }

  lemma {:induction false} StepFollows(s: State, op: Op)
    requires Inv(s)
    ensures Follows(s, Step(s, op).0, EventsOf(s, op))
    decreases op, 1
  {
    var (t, r, f) := Step(s, op);
    if r.Err? {
      StepConserves(s, op);
      FollowsNothing(s, t);
    } else {
      match op {
        case Create(caller, recipient, total, amounts) => OneGrantCall(s, t, Model.DoCreate(caller, recipient, total, amounts));
        case Confirm(caller, id, index) =>
          ConfirmAsModel(s, caller, id, index);
          OneGrantCall(s, t, Model.DoConfirm(caller, id, index));
        case Claim(recipient, id, feeBps, inside, ok) => ClaimFollows(s, recipient, id, feeBps, inside, ok);
        case Sweep(token, inside, ok) => SweepFollows(s, token, inside, ok);
        case SetFeeConfig(_, treasury, registry) =>
          assert GrantCalls([FeesSet(treasury, registry)]) == [];
        case SetAllowed(_, recipient, allow) =>
          assert GrantCalls([AllowedSet(recipient, allow)]) == [];
      }
    }
  }

  /** What a claim that goes through does, and what it makes happen. */
  lemma ClaimShape(s: State, recipient: nat, id: nat, feeBps: nat, inside: seq<Op>, ok: bool)
    requires Inv(s) && DoClaim(s, recipient, id, feeBps, inside, ok).1.Ok?
    ensures id in s.grants && s.grants[id].recipient == recipient && s.grants[id].claimable > 0
    ensures Quote(s, s.grants[id].claimable, feeBps).Ok?
    ensures var (net, fee) := Quote(s, s.grants[id].claimable, feeBps).value;
            && s.grants[id].claimable == net + fee && net >= 0 && fee >= 0 && FitsI128(s.accrued + fee)
            && DoClaim(s, recipient, id, feeBps, inside, ok).0
               == (if net > 0 then Inside(Settle(s, id, fee), inside).0 else Settle(s, id, fee)).(locked := false)
            && EventsOf(s, Claim(recipient, id, feeBps, inside, ok))
               == [OnGrants(Model.DoClaim(recipient, id))] + if net > 0 then EventsIn(Settle(s, id, fee), inside) else []
  {
    QuoteMeaning(s, s.grants[id].claimable, feeBps);
  }

  lemma {:induction false} ClaimFollows(s: State, recipient: nat, id: nat, feeBps: nat, inside: seq<Op>, ok: bool)
    requires Inv(s) && DoClaim(s, recipient, id, feeBps, inside, ok).1.Ok?
    ensures Follows(s, DoClaim(s, recipient, id, feeBps, inside, ok).0, EventsOf(s, Claim(recipient, id, feeBps, inside, ok)))
    decreases inside, 2
  {
    ClaimShape(s, recipient, id, feeBps, inside, ok);
    var (net, fee) := Quote(s, s.grants[id].claimable, feeBps).value;
    SettleAccounts(s, recipient, id, net, fee);
    if net > 0 {
      InsideFollows(Settle(s, id, fee), inside);
    }
    SettledFollows(s, recipient, id, fee, if net > 0 then inside else []);
  }

  lemma SettledFollows(s: State, recipient: nat, id: nat, fee: i128, inside: seq<Op>)
    requires id in s.grants && s.grants[id].recipient == recipient && s.grants[id].claimable > 0
    requires FitsI128(s.accrued + fee)
    requires inside == [] || Follows(Settle(s, id, fee), Inside(Settle(s, id, fee), inside).0, EventsIn(Settle(s, id, fee), inside))
    ensures var effects := Settle(s, id, fee);
            Follows(s, Inside(effects, inside).0.(locked := false),
                    [OnGrants(Model.DoClaim(recipient, id))] + EventsIn(effects, inside))
  {
    var effects := Settle(s, id, fee);
    SettleAsModel(s, recipient, id, fee);
    OneGrantCall(s, effects, Model.DoClaim(recipient, id));
    FollowsNothing(effects, effects);
    ThenUnlocked(s, effects, Inside(effects, inside).0, [OnGrants(Model.DoClaim(recipient, id))], EventsIn(effects, inside));
  }

  /** What a sweep that goes through does, and what it makes happen. */
  lemma SweepShape(s: State, token: nat, inside: seq<Op>, ok: bool)
    requires DoSweep(s, token, inside, ok).1.Ok?
    ensures var effects := s.(locked := true, accrued := 0);
            && DoSweep(s, token, inside, ok).0
               == (if s.accrued == 0 then s else Inside(effects, inside).0.(locked := false))
            && EventsOf(s, Sweep(token, inside, ok)) == (if s.accrued == 0 then [] else EventsIn(effects, inside))
  {
  }

  lemma {:induction false} SweepFollows(s: State, token: nat, inside: seq<Op>, ok: bool)
    requires Inv(s) && DoSweep(s, token, inside, ok).1.Ok?
    ensures Follows(s, DoSweep(s, token, inside, ok).0, EventsOf(s, Sweep(token, inside, ok)))
    decreases inside, 2
  {
    SweepShape(s, token, inside, ok);
    if s.accrued == 0 {
      FollowsNothing(s, s);
    } else {
      var effects := s.(locked := true, accrued := 0);
      InsideFollows(effects, inside);
      SweptFollows(s, effects, Inside(effects, inside).0, EventsIn(effects, inside));
    }
  }

  lemma SweptFollows(s: State, effects: State, t: State, events: seq<Event>)
    requires effects == s.(locked := true, accrued := 0) && Follows(effects, t, events)
    ensures Follows(s, t.(locked := false), events)
  {
    FollowsNothing(s, effects);
    ThenUnlocked(s, effects, t, [], events);
    assert [] + events == events;
  }

  lemma {:induction false} InsideFollows(s: State, ops: seq<Op>)
    requires Inv(s)
    ensures Follows(s, Inside(s, ops).0, EventsIn(s, ops))
    decreases ops, 1
  {
    if ops == [] {
      FollowsNothing(s, s);
    } else {
      StepConserves(s, ops[0]);
      StepFollows(s, ops[0]);
      var t := Step(s, ops[0]).0;
      InsideFollows(t, ops[1..]);
      FollowsOn(s, t, Inside(t, ops[1..]).0, EventsOf(s, ops[0]), EventsIn(t, ops[1..]));
    }
  }

  lemma {:induction false} GrantCallsAreSingle(s: State, ops: seq<Op>)
    ensures ModelHistory.NoBatches(GrantCalls(EventsIn(s, ops)))
    decreases ops, 1
  {
    if ops != [] {
      EventsAreSingle(s, ops[0]);
      GrantCallsAreSingle(Step(s, ops[0]).0, ops[1..]);
      GrantCallsConcat(EventsOf(s, ops[0]), EventsIn(Step(s, ops[0]).0, ops[1..]));
    }
  }

  lemma {:induction false} EventsAreSingle(s: State, op: Op)
    ensures ModelHistory.NoBatches(GrantCalls(EventsOf(s, op)))
    decreases op, 1
  {
    match op {
      case Claim(recipient, id, feeBps, inside, ok) =>
        if DoClaim(s, recipient, id, feeBps, inside, ok).1.Ok? {
          var (net, fee) := Quote(s, s.grants[id].claimable, feeBps).value;
          var nested := if net > 0 then EventsIn(Settle(s, id, fee), inside) else [];
          GrantCallsAreSingle(Settle(s, id, fee), inside);
          GrantCallsConcat([OnGrants(Model.DoClaim(recipient, id))], nested);
        }
      case Sweep(token, inside, ok) =>
        if s.accrued != 0 {
          GrantCallsAreSingle(s.(locked := true, accrued := 0), inside);
        }
      case _ =>
    }
  }

  /** The log of the plain model for a run of the contract. */
  function GrantLog(governance: nat, token: nat, ops: seq<Op>): seq<ModelHistory.Entry> {
    var s := Initial(governance, token);
    ModelHistory.Log(AsModel(s), GrantCalls(EventsIn(s, ops)))
  }

  /**
   * Over every run, calls made from inside transfers included, the grants are
   * those of the plain model after the creations, confirmations and claims
   * that took effect, in the order they did; so each has the recipient, award
   * and amounts of its one creation, and each milestone is confirmed and
   * claimed exactly as those calls say. Fee configuration and screening are
   * what the last call about them said.
   */
  lemma RefinesModel(governance: nat, token: nat, ops: seq<Op>)
    ensures var s := Initial(governance, token);
            var t := Inside(s, ops).0;
            && Follows(s, t, EventsIn(s, ops))
            && ModelHistory.HistoryOk(AsModel(t), GrantLog(governance, token, ops))
  {
    var s := Initial(governance, token);
    InsideFollows(s, ops);
    GrantCallsAreSingle(s, ops);
    assert AsModel(s) == Model.Initial(governance);
    ModelHistory.SinglesTraced(governance, GrantCalls(EventsIn(s, ops)));
  }

  // ---------------------------------------------------------------------
  // What is accepted
  // ---------------------------------------------------------------------

  /** The rate a claim pays: none without a registry, else what the registry says. */
  function RateBy(s: State, feeBps: nat): nat {
    if s.feeRegistry.Some? then feeBps else 0
  }

  /** The call of the plain model that a call on grants is. */
  function AsGrantCall(op: Op): Option<Model.Op> {
    match op
    case Create(caller, recipient, total, amounts) => Some(Model.DoCreate(caller, recipient, total, amounts))
    case Confirm(caller, id, index) => Some(Model.DoConfirm(caller, id, index))
    case Claim(recipient, id, _, _, _) => Some(Model.DoClaim(recipient, id))
    case _ => None
  }

  /** What the grants so far, the configuration and the fees collected allow. */
  ghost predicate Welcome(s: State, log: seq<ModelHistory.Entry>, governance: nat, op: Op) {
    && (AsGrantCall(op).Some? ==> ModelHistory.Welcome(log, governance, AsGrantCall(op).value))
    && match op
       case Create(_, recipient, _, _) => recipient in s.allowed && Count(log, ModelHistory.Creating()) < U64_MAX
       case Confirm(_, _, _) => true
       case Claim(_, id, feeBps, _, ok) =>
         && RateBy(s, feeBps) <= Fee.MAX_FEE_BPS && id in s.grants
         && var fee := s.grants[id].claimable * RateBy(s, feeBps) / 10_000;
         && s.accrued + fee <= I128_MAX && (ok || s.grants[id].claimable - fee <= 0)
       case Sweep(token, _, ok) => token == s.token && (s.accrued == 0 || (s.treasury.Some? && ok))
       case SetFeeConfig(caller, _, _) => caller == governance
       case SetAllowed(caller, _, _) => caller == governance
  }

  /**
   * Between transfers, a call is accepted exactly if the grant calls that took
   * effect before it, the configuration and the fees collected allow it; and a
   * claim then returns the whole claimable amount less the floored fee, a
   * sweep all fees collected, and a creation the next id.
   */
  lemma AcceptedByHistory(governance: nat, token: nat, ops: seq<Op>, op: Op)
    ensures var t := Inside(Initial(governance, token), ops).0;
            && (Step(t, op).1.Ok? <==> Welcome(t, GrantLog(governance, token, ops), governance, op))
            && (Step(t, op).1.Ok? && op.Claim? ==>
                  op.id in t.grants
                  && Step(t, op).1.value
                     == t.grants[op.id].claimable - t.grants[op.id].claimable * RateBy(t, op.feeBps) / 10_000)
            && (Step(t, op).1.Ok? && op.Sweep? ==> Step(t, op).1.value == t.accrued)
            && (Step(t, op).1.Ok? && op.Create? ==>
                  Step(t, op).1.value == Count(GrantLog(governance, token, ops), ModelHistory.Creating()))
  {
    var s := Initial(governance, token);
    var t, log := Inside(s, ops).0, GrantLog(governance, token, ops);
    RefinesModel(governance, token, ops);
    FeesConserved(governance, token, ops);
    match op {
      case Create(caller, recipient, total, amounts) =>
        ModelHistory.ScanExactly(0, amounts);
      case Confirm(caller, id, index) =>
        ConfirmAsModel(t, caller, id, index);
        ModelHistory.ConfirmWelcome(AsModel(t), log, caller, id, index);
      case Claim(recipient, id, feeBps, inside, ok) => ClaimWelcome(t, log, recipient, id, feeBps, inside, ok);
      case _ =>
    }
  }

  lemma ClaimWelcome(s: State, log: seq<ModelHistory.Entry>, recipient: nat, id: nat, feeBps: nat, inside: seq<Op>, ok: bool)
    requires Inv(s) && !s.locked && ModelHistory.HistoryOk(AsModel(s), log)
    ensures var r := DoClaim(s, recipient, id, feeBps, inside, ok).1;
            && (r.Ok? <==> Welcome(s, log, s.governance, Claim(recipient, id, feeBps, inside, ok)))
            && (r.Ok? ==>
                  id in s.grants
                  && r.value == s.grants[id].claimable - s.grants[id].claimable * RateBy(s, feeBps) / 10_000)
  {
    ModelHistory.ClaimWelcome(AsModel(s), log, recipient, id);
    assert ModelHistory.GrantTraced(AsModel(s), log, id);
    if id in s.grants {
      QuoteMeaning(s, s.grants[id].claimable, feeBps);
    }
  }
}
