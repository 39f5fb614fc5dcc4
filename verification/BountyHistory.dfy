/** What the bounty escrow has on record, traced back to the calls that put it there. */
module BountyHistory {
  import opened Results
  import opened History
  import opened Bounty
  import opened BountyReserves
  import opened BountyRuns

  /** An accepted call and what it returned. */
  datatype Entry = Entry(call: Call, value: int)

  function Log(sha: nat -> nat, s: State, calls: seq<Call>): seq<Entry> {
    if calls == [] then []
    else
      var n := |calls| - 1;
      var r := Step(sha, Run(sha, s, calls[..n]), calls[n]).1;
      Log(sha, s, calls[..n]) + if r.Ok? then [Entry(calls[n], r.value)] else []
  }

  // ---------------------------------------------------------------------
  // What an entry is about
  // ---------------------------------------------------------------------

  function Governs(): Entry -> bool {
    (e: Entry) => e.call.op.SetGovernance?
  }

  function Screens(a: nat): Entry -> bool {
    (e: Entry) => e.call.op.Screen? && e.call.op.recipient == a
  }

  function Freezes(a: nat): Entry -> bool {
    (e: Entry) => e.call.op.Freeze? && e.call.op.address == a
  }

  function Reserving(): Entry -> bool {
    (e: Entry) => e.call.op.CreatePayout?
  }

  function Creates(id: nat): Entry -> bool {
    (e: Entry) => e.call.op.CreatePayout? && e.value == id
  }

  function Claims(id: nat): Entry -> bool {
    (e: Entry) => e.call.op.Claim? && e.call.op.id == id
  }

  function Sweeps(id: nat): Entry -> bool {
    (e: Entry) => e.call.op.Sweep? && e.call.op.id == id
  }

  /** The commitment a report is filed or adjudicated under. */
  function Discloses(r: nat): Entry -> bool {
    (e: Entry) => (e.call.op.Disclose? || e.call.op.AwardCommitment?) && e.call.op.reportHash == r
  }

  function Uses(c: nat): Entry -> bool {
    (e: Entry) => (e.call.op.Disclose? || e.call.op.AwardCommitment?) && e.call.op.commitment == c
  }

  function Pushes(r: nat): Entry -> bool {
    (e: Entry) => e.call.op.AwardNow? && e.call.op.reportHash == r
  }

  function Binds(sha: nat -> nat, c: nat): Entry -> bool {
    (e: Entry) => (e.call.op.Register? || e.call.op.Rotate?) && sha(e.call.op.preimage) == c
  }

  function Adjudicates(c: nat): Entry -> bool {
    (e: Entry) => e.call.op.AwardCommitment? && e.call.op.commitment == c
  }

  function Collects(sha: nat -> nat, c: nat): Entry -> bool {
    (e: Entry) => e.call.op.ClaimByCommitment? && sha(e.call.op.preimage) == c
  }

  // ---------------------------------------------------------------------
  // The state against the log
  // ---------------------------------------------------------------------

  function GovernanceBy(log: seq<Entry>, first: nat): nat {
    match Last(log, Governs())
    case Some(e) => if e.call.op.SetGovernance? then e.call.op.governance else first
    case None => first
  }

  predicate ScreenedBy(log: seq<Entry>, a: nat) {
    match Last(log, Screens(a))
    case Some(e) => e.call.op.Screen? && e.call.op.allow
    case None => false
  }

  predicate FrozenBy(log: seq<Entry>, a: nat) {
    match Last(log, Freezes(a))
    case Some(e) => e.call.op.Freeze? && e.call.op.freeze
    case None => false
  }

  ghost predicate AddressOk(s: State, log: seq<Entry>, a: nat) {
    (a in s.allowed <==> ScreenedBy(log, a)) && (a in s.frozen <==> FrozenBy(log, a))
  }

  function StatusBy(log: seq<Entry>, id: nat): PayoutStatus {
    if Last(log, Claims(id)).Some? then Claimed else if Last(log, Sweeps(id)).Some? then Swept else Pending
  }

  /** A payout comes from one call, and its recipient, amount and deadline are that call's. */
  ghost predicate PayoutOk(s: State, log: seq<Entry>, id: nat) {
    var e := Last(log, Creates(id));
    && (id in s.payouts <==> e.Some?)
    && Count(log, Creates(id)) == (if id in s.payouts then 1 else 0)
    && (id !in s.payouts ==> Last(log, Claims(id)).None? && Last(log, Sweeps(id)).None?)
    && (e.Some? && e.value.call.op.CreatePayout? && id in s.payouts ==>
          s.payouts[id] == Payout(e.value.call.op.recipient, e.value.call.op.amount, e.value.call.op.deadline,
                                  StatusBy(log, id)))
  }

  ghost predicate ReportOk(s: State, log: seq<Entry>, r: nat) {
    && (r in s.disclosures <==> Last(log, Discloses(r)).Some?)
    && (r in s.disclosures ==> Named(Last(log, Discloses(r)).value) == Some(s.disclosures[r]))
  }

  function Named(e: Entry): Option<nat> {
    match e.call.op
    case Disclose(_, c) => Some(c)
    case AwardCommitment(_, _, c, _) => Some(c)
    case _ => None
  }

  /** The binding the last registration or rotation made. */
  function BoundBy(e: Entry): Option<Binding> {
    match e.call.op
    case Register(owner, _, a) =>
      Some(Binding(owner, a, e.call.now, SaturatingAddU64(e.call.now, DEFAULT_BINDING_TTL_SECS)))
    case Rotate(owner, _, a) =>
      Some(Binding(owner, a, e.call.now, SaturatingAddU64(e.call.now, DEFAULT_BINDING_TTL_SECS)))
    case _ => None
  }

  function AwardedBy(e: Entry, open: bool): Option<CommitmentAward> {
    match e.call.op
    case AwardCommitment(_, r, c, amount) => Some(CommitmentAward(r, c, amount, e.call.now, open))
    case _ => None
  }

  ghost predicate BindingOk(sha: nat -> nat, s: State, log: seq<Entry>, c: nat) {
    && (c in s.used <==> Last(log, Uses(c)).Some?)
    && (c in s.bindings <==> Last(log, Binds(sha, c)).Some?)
    && (c in s.bindings ==> BoundBy(Last(log, Binds(sha, c)).value) == Some(s.bindings[c]))
  }

  ghost predicate CommitmentOk(sha: nat -> nat, s: State, log: seq<Entry>, c: nat) {
    && (c in s.commitmentAwards <==> Last(log, Adjudicates(c)).Some?)
    && Count(log, Adjudicates(c)) == (if c in s.commitmentAwards then 1 else 0)
    && (c in s.commitmentAwards ==>
          AwardedBy(Last(log, Adjudicates(c)).value, Last(log, Collects(sha, c)).None?) == Some(s.commitmentAwards[c]))
    && (Last(log, Collects(sha, c)).Some? ==> c in s.commitmentAwards && c in s.bindings)
  }

  /** The commitment of a report has been collected on. */
  predicate Collected(sha: nat -> nat, s: State, log: seq<Entry>, r: nat) {
    r in s.disclosures && Last(log, Collects(sha, s.disclosures[r])).Some?
  }

  /** Who was rewarded for a report: the address its commitment was bound to when collected, or else whom the push named. */
  ghost predicate RewardOk(sha: nat -> nat, s: State, log: seq<Entry>, r: nat) {
    && (r in s.awards <==> Collected(sha, s, log, r) || Last(log, Pushes(r)).Some?)
    && (r in s.awards ==>
          if Collected(sha, s, log, r) then
            var c := s.disclosures[r];
            && c in s.bindings && c in s.commitmentAwards
            && s.awards[r] == Award(s.bindings[c].payoutAddress, s.commitmentAwards[c].amount, r,
                                    Last(log, Collects(sha, c)).value.call.now)
          else
            PushedBy(Last(log, Pushes(r)).value) == Some(s.awards[r]))
  }

  function PushedBy(e: Entry): Option<Award> {
    match e.call.op
    case AwardNow(_, researcher, amount, r, _) => Some(Award(researcher, amount, r, e.call.now))
    case _ => None
  }

  ghost predicate HistoryOk(sha: nat -> nat, s: State, log: seq<Entry>, first: nat) {
    && s.governance == GovernanceBy(log, first)
    && s.nextPayoutId == Count(log, Reserving())
    && (forall a :: AddressOk(s, log, a))
    && (forall id :: PayoutOk(s, log, id))
    && (forall r :: ReportOk(s, log, r))
    && (forall c :: BindingOk(sha, s, log, c))
    && (forall c :: CommitmentOk(sha, s, log, c))
    && (forall r :: RewardOk(sha, s, log, r))
  }

  // ---------------------------------------------------------------------
  // One call
  // ---------------------------------------------------------------------

  /** What an accepted call changes, and what it found when it did. */
  ghost predicate Moves(sha: nat -> nat, s: State, t: State, e: Entry) {
    match e.call.op
    case SetGovernance(_, g) => e.value == 0 && t == s.(governance := g)
    case Fund(_, _) => e.value == 0 && t == s.(balance := t.balance)
    case AwardNow(_, researcher, amount, r, _) =>
      e.value == 0 && r !in s.awards
      && t == s.(balance := t.balance, awards := s.awards[r := Award(researcher, amount, r, e.call.now)])
    case CreatePayout(_, recipient, amount, deadline) =>
      && e.value == s.nextPayoutId < U64_MAX
      && t == s.(reserved := t.reserved, nextPayoutId := s.nextPayoutId + 1,
                 payouts := s.payouts[s.nextPayoutId := Payout(recipient, amount, deadline, Pending)])
    case Claim(recipient, id, _) =>
      && id in s.payouts && s.payouts[id].status.Pending?
      && recipient == s.payouts[id].recipient && e.value == s.payouts[id].amount
      && t == s.(reserved := t.reserved, balance := t.balance,
                 payouts := s.payouts[id := s.payouts[id].(status := Claimed)])
    case Sweep(id, _) =>
      && id in s.payouts && s.payouts[id].status.Pending? && e.value == s.payouts[id].amount
      && t == s.(reserved := t.reserved, balance := t.balance,
                 payouts := s.payouts[id := s.payouts[id].(status := Swept)])
    case Disclose(r, c) =>
      && e.value == 0 && r !in s.disclosures && r !in s.awards && c !in s.used
      && t == s.(disclosures := s.disclosures[r := c], used := s.used + {c})
    case Register(owner, preimage, a) =>
      && e.value == sha(preimage) && sha(preimage) !in s.bindings
      && t == s.(bindings := s.bindings[sha(preimage) := NewBinding(owner, a, e.call.now)])
    case Rotate(owner, preimage, a) =>
      && e.value == 0 && sha(preimage) in s.bindings && s.bindings[sha(preimage)].owner == owner
      && (sha(preimage) in s.commitmentAwards ==> s.commitmentAwards[sha(preimage)].open)
      && t == s.(bindings := s.bindings[sha(preimage) := NewBinding(owner, a, e.call.now)])
    case AwardCommitment(_, r, c, amount) =>
      && e.value == 0 && c !in s.commitmentAwards && r !in s.awards
      && (r in s.disclosures ==> s.disclosures[r] == c) && (r !in s.disclosures ==> c !in s.used)
      && t == s.(reserved := t.reserved,
                 disclosures := if r in s.disclosures then s.disclosures else s.disclosures[r := c],
                 used := if r in s.disclosures then s.used else s.used + {c},
                 commitmentAwards := s.commitmentAwards[c := CommitmentAward(r, c, amount, e.call.now, true)])
    case ClaimByCommitment(_, preimage, _) =>
      var c := sha(preimage);
      && c in s.commitmentAwards && s.commitmentAwards[c].open && c in s.bindings
      && var a := s.commitmentAwards[c];
      && e.value == a.amount
      && t == s.(reserved := t.reserved, balance := t.balance,
                 commitmentAwards := s.commitmentAwards[c := a.(open := false)],
                 awards := s.awards[a.reportHash :=
                             Award(s.bindings[c].payoutAddress, a.amount, a.reportHash, e.call.now)])
    case Freeze(_, a, freeze) => e.value == 0 && t == s.(frozen := if freeze then s.frozen + {a} else s.frozen - {a})
    case Screen(a, allow) => e.value == 0 && t == s.(allowed := if allow then s.allowed + {a} else s.allowed - {a})
  }

  lemma RefusedStep(sha: nat -> nat, s: State, call: Call)
    requires Step(sha, s, call).1.Err?
    ensures Step(sha, s, call).0 == s
  {
  }

  lemma StepMoves(sha: nat -> nat, s: State, call: Call)
    requires Step(sha, s, call).1.Ok?
    ensures Moves(sha, s, Step(sha, s, call).0, Entry(call, Step(sha, s, call).1.value))
  {
    match call.op {
      case CreatePayout(_, _, _, _) => PullMoves(sha, s, call);
      case Claim(_, _, _) => PullMoves(sha, s, call);
      case Sweep(_, _) => PullMoves(sha, s, call);
      case Disclose(_, _) => IndirectMoves(sha, s, call);
      case Register(_, _, _) => IndirectMoves(sha, s, call);
      case Rotate(_, _, _) => IndirectMoves(sha, s, call);
      case AwardCommitment(_, _, _, _) => AwardMovesState(sha, s, call);
      case ClaimByCommitment(_, _, _) => AwardMovesState(sha, s, call);
      case _ => DirectMoves(sha, s, call);
    }
  }

  lemma PullMoves(sha: nat -> nat, s: State, call: Call)
    requires call.op.CreatePayout? || call.op.Claim? || call.op.Sweep?
    requires Step(sha, s, call).1.Ok?
    ensures Moves(sha, s, Step(sha, s, call).0, Entry(call, Step(sha, s, call).1.value))
  {
  }

  lemma IndirectMoves(sha: nat -> nat, s: State, call: Call)
    requires call.op.Disclose? || call.op.Register? || call.op.Rotate?
    requires Step(sha, s, call).1.Ok?
    ensures Moves(sha, s, Step(sha, s, call).0, Entry(call, Step(sha, s, call).1.value))
  {
  }

  lemma AwardMovesState(sha: nat -> nat, s: State, call: Call)
    requires call.op.AwardCommitment? || call.op.ClaimByCommitment?
    requires Step(sha, s, call).1.Ok?
    ensures Moves(sha, s, Step(sha, s, call).0, Entry(call, Step(sha, s, call).1.value))
  {
  }

  lemma DirectMoves(sha: nat -> nat, s: State, call: Call)
    requires call.op.SetGovernance? || call.op.Fund? || call.op.AwardNow? || call.op.Freeze? || call.op.Screen?
    requires Step(sha, s, call).1.Ok?
    ensures Moves(sha, s, Step(sha, s, call).0, Entry(call, Step(sha, s, call).1.value))
  {
  }

  lemma GovernanceTraced(sha: nat -> nat, s: State, t: State, log: seq<Entry>, e: Entry, first: nat)
    requires Moves(sha, s, t, e) && s.governance == GovernanceBy(log, first) && s.nextPayoutId == Count(log, Reserving())
    ensures t.governance == GovernanceBy(log + [e], first) && t.nextPayoutId == Count(log + [e], Reserving())
  {
    LastSnoc(log, e, Governs());
    CountSnoc(log, e, Reserving());
  }

  lemma AddressTraced(sha: nat -> nat, s: State, t: State, log: seq<Entry>, e: Entry, a: nat)
    requires Moves(sha, s, t, e) && AddressOk(s, log, a)
    ensures AddressOk(t, log + [e], a)
  {
    LastSnoc(log, e, Screens(a));
    LastSnoc(log, e, Freezes(a));
  }

  lemma PayoutTraced(sha: nat -> nat, s: State, t: State, log: seq<Entry>, e: Entry, id: nat)
    requires Moves(sha, s, t, e) && PayoutOk(s, log, id) && (id in s.payouts ==> id < s.nextPayoutId)
    ensures PayoutOk(t, log + [e], id)
  {
    LastSnoc(log, e, Creates(id));
    CountSnoc(log, e, Creates(id));
    LastSnoc(log, e, Claims(id));
    LastSnoc(log, e, Sweeps(id));
  }

  lemma ReportTraced(sha: nat -> nat, s: State, t: State, log: seq<Entry>, e: Entry, r: nat)
    requires Moves(sha, s, t, e) && ReportOk(s, log, r)
    ensures ReportOk(t, log + [e], r)
  {
    LastSnoc(log, e, Discloses(r));
  }

  lemma BindingTraced(sha: nat -> nat, s: State, t: State, log: seq<Entry>, e: Entry, c: nat)
    requires Moves(sha, s, t, e) && BindingOk(sha, s, log, c)
    requires forall r :: r in s.disclosures ==> s.disclosures[r] in s.used
    ensures BindingOk(sha, t, log + [e], c)
  {
    LastSnoc(log, e, Uses(c));
    LastSnoc(log, e, Binds(sha, c));
  }

  lemma CommitmentTraced(sha: nat -> nat, s: State, t: State, log: seq<Entry>, e: Entry, c: nat)
    requires Moves(sha, s, t, e) && CommitmentOk(sha, s, log, c)
    ensures CommitmentOk(sha, t, log + [e], c)
  {
    LastSnoc(log, e, Adjudicates(c));
    CountSnoc(log, e, Adjudicates(c));
    LastSnoc(log, e, Collects(sha, c));
  }

  lemma RewardTraced(sha: nat -> nat, s: State, t: State, log: seq<Entry>, e: Entry, r: nat)
    requires Moves(sha, s, t, e) && Linked(s) && RewardOk(sha, s, log, r)
    requires forall c :: CommitmentOk(sha, s, log, c)
    ensures RewardOk(sha, t, log + [e], r)
  {
    if e.call.op.ClaimByCommitment? {
      CollectRewards(sha, s, t, log, e, r);
    } else if e.call.op.Disclose? || e.call.op.AwardCommitment? {
      NewReportUnrewarded(sha, s, t, log, e, r);
    } else {
      SameReports(sha, s, t, log, e, r);
    }
  }

  lemma SameReports(sha: nat -> nat, s: State, t: State, log: seq<Entry>, e: Entry, r: nat)
    requires !e.call.op.ClaimByCommitment? && !e.call.op.Disclose? && !e.call.op.AwardCommitment?
    requires Moves(sha, s, t, e) && RewardOk(sha, s, log, r)
    requires r in s.disclosures ==> CommitmentOk(sha, s, log, s.disclosures[r])
    ensures RewardOk(sha, t, log + [e], r)
  {
    LastSnoc(log, e, Pushes(r));
    if r in s.disclosures {
      LastSnoc(log, e, Collects(sha, s.disclosures[r]));
    }
  }

  lemma CollectRewards(sha: nat -> nat, s: State, t: State, log: seq<Entry>, e: Entry, r: nat)
    requires e.call.op.ClaimByCommitment? && Moves(sha, s, t, e) && Linked(s) && RewardOk(sha, s, log, r)
    ensures RewardOk(sha, t, log + [e], r)
  {
    var c := sha(e.call.op.preimage);
    assert AwardLinked(s, c);
    LastSnoc(log, e, Pushes(r));
    if r in s.disclosures {
      LastSnoc(log, e, Collects(sha, s.disclosures[r]));
    }
  }

  lemma NewReportUnrewarded(sha: nat -> nat, s: State, t: State, log: seq<Entry>, e: Entry, r: nat)
    requires (e.call.op.Disclose? || e.call.op.AwardCommitment?) && Moves(sha, s, t, e) && Linked(s)
    requires RewardOk(sha, s, log, r) && forall c :: CommitmentOk(sha, s, log, c)
    ensures RewardOk(sha, t, log + [e], r)
  {
    var c := e.call.op.commitment;
    assert CommitmentOk(sha, s, log, c);
    assert c in s.commitmentAwards ==> AwardLinked(s, c);
    LastSnoc(log, e, Pushes(r));
    LastSnoc(log, e, Collects(sha, c));
    if r in s.disclosures {
      assert CommitmentOk(sha, s, log, s.disclosures[r]);
      LastSnoc(log, e, Collects(sha, s.disclosures[r]));
    }
  }

  lemma MovesTraced(sha: nat -> nat, s: State, t: State, log: seq<Entry>, e: Entry, first: nat)
    requires Moves(sha, s, t, e) && Inv(s) && HistoryOk(sha, s, log, first)
    ensures HistoryOk(sha, t, log + [e], first)
  {
    GovernanceTraced(sha, s, t, log, e, first);
    forall a ensures AddressOk(t, log + [e], a) {
      AddressTraced(sha, s, t, log, e, a);
    }
    forall id ensures PayoutOk(t, log + [e], id) {
      PayoutTraced(sha, s, t, log, e, id);
    }
    forall c ensures BindingOk(sha, t, log + [e], c) {
      BindingTraced(sha, s, t, log, e, c);
    }
    forall c ensures CommitmentOk(sha, t, log + [e], c) {
      CommitmentTraced(sha, s, t, log, e, c);
    }
    forall r ensures ReportOk(t, log + [e], r) && RewardOk(sha, t, log + [e], r) {
      ReportTraced(sha, s, t, log, e, r);
      RewardTraced(sha, s, t, log, e, r);
    }
  }

  /**
   * On every run, all that is on record comes from the accepted calls: a
   * payout from one creation, whose recipient, amount and deadline it has; a
   * binding from the last registration or rotation; a commitment award from
   * one adjudication; a reward from the push, or from the collection of its
   * commitment, and then for the address the commitment is bound to; and
   * governance, screening and freezing from the last call about them.
   */
  lemma {:induction false} RunIsTraced(sha: nat -> nat, first: nat, calls: seq<Call>)
    ensures HistoryOk(sha, Run(sha, Initial(first), calls), Log(sha, Initial(first), calls), first)
  {
    if calls != [] {
      var n := |calls| - 1;
      var s, log := Run(sha, Initial(first), calls[..n]), Log(sha, Initial(first), calls[..n]);
      RunIsTraced(sha, first, calls[..n]);
      RunConserves(sha, first, calls[..n]);
      if Step(sha, s, calls[n]).1.Ok? {
        StepMoves(sha, s, calls[n]);
        MovesTraced(sha, s, Step(sha, s, calls[n]).0, log, Entry(calls[n], Step(sha, s, calls[n]).1.value), first);
      } else {
        RefusedStep(sha, s, calls[n]);
        assert log + [] == log;
      }
    }
  }

  // ---------------------------------------------------------------------
  // What is accepted
  // ---------------------------------------------------------------------

  predicate IsDue(log: seq<Entry>, id: nat) {
    Last(log, Creates(id)).Some? && StatusBy(log, id).Pending?
  }

  /** The recipient governance named when it created the payout. */
  predicate NamedFor(log: seq<Entry>, id: nat, recipient: nat) {
    Last(log, Creates(id)).Some?
    && Last(log, Creates(id)).value.call.op.CreatePayout? && Last(log, Creates(id)).value.call.op.recipient == recipient
  }

  /** The report was rewarded, by a push or by collecting on the commitment it is filed under. */
  predicate RewardedBy(sha: nat -> nat, log: seq<Entry>, r: nat) {
    || Last(log, Pushes(r)).Some?
    || (match Last(log, Discloses(r))
        case Some(e) => Named(e).Some? && Last(log, Collects(sha, Named(e).value)).Some?
        case None => false)
  }

  /** The binding in force for a commitment. */
  function BindingBy(sha: nat -> nat, log: seq<Entry>, c: nat): Option<Binding> {
    match Last(log, Binds(sha, c))
    case Some(e) => BoundBy(e)
    case None => None
  }

  /** What the calls made so far, and the funds not reserved, allow. */
  predicate Welcome(sha: nat -> nat, log: seq<Entry>, first: nat, balance: int, available: int, call: Call) {
    match call.op
    case SetGovernance(caller, _) => caller == GovernanceBy(log, first)
    case Fund(amount, ok) => amount > 0 && balance + amount <= I128_MAX && ok
    case AwardNow(caller, researcher, amount, r, ok) =>
      && caller == GovernanceBy(log, first) && 0 < amount <= available && ScreenedBy(log, researcher)
      && !RewardedBy(sha, log, r) && ok
    case CreatePayout(caller, recipient, amount, deadline) =>
      && caller == GovernanceBy(log, first) && 0 < amount <= available && ScreenedBy(log, recipient)
      && deadline > call.now && Count(log, Reserving()) < U64_MAX
    case Claim(recipient, id, ok) => IsDue(log, id) && NamedFor(log, id, recipient) && ok
    case Sweep(id, ok) =>
      && IsDue(log, id) && Last(log, Creates(id)).value.call.op.CreatePayout?
      && call.now >= Last(log, Creates(id)).value.call.op.deadline && ok
    case Disclose(r, c) => Last(log, Discloses(r)).None? && Last(log, Pushes(r)).None? && Last(log, Uses(c)).None?
    case Register(_, preimage, a) => !FrozenBy(log, a) && BindingBy(sha, log, sha(preimage)).None?
    case Rotate(owner, preimage, a) =>
      var b := BindingBy(sha, log, sha(preimage));
      && !FrozenBy(log, a) && b.Some? && b.value.owner == owner && call.now <= b.value.expiresAt
      && Last(log, Collects(sha, sha(preimage))).None?
    case AwardCommitment(caller, r, c, amount) =>
      && caller == GovernanceBy(log, first) && 0 < amount <= available && !RewardedBy(sha, log, r)
      && Last(log, Adjudicates(c)).None?
      && (match Last(log, Discloses(r))
          case Some(e) => Named(e) == Some(c)
          case None => Last(log, Uses(c)).None?)
    case ClaimByCommitment(caller, preimage, ok) =>
      var b := BindingBy(sha, log, sha(preimage));
      && Last(log, Adjudicates(sha(preimage))).Some? && Last(log, Collects(sha, sha(preimage))).None?
      && b.Some? && call.now <= b.value.expiresAt && (caller == b.value.owner || caller == b.value.payoutAddress)
      && !FrozenBy(log, b.value.payoutAddress) && ok
    case Freeze(caller, _, _) => caller == GovernanceBy(log, first)
    case Screen(_, _) => true
  }

  /**
   * After any run, the accepted calls before it and the funds not reserved
   * decide whether a call is accepted, and what it returns. So a payout is claimed by the recipient
   * governance named, once, and no arithmetic ever refuses a call they allow.
   */
  lemma AcceptedByHistory(sha: nat -> nat, first: nat, calls: seq<Call>, call: Call)
    ensures var s, log := Run(sha, Initial(first), calls), Log(sha, Initial(first), calls);
            && (Step(sha, s, call).1.Ok? <==> Welcome(sha, log, first, s.balance, Available(s), call))
            && (Step(sha, s, call).1.Ok? ==> Some(Step(sha, s, call).1.value) == Returned(sha, log, call))
  {
    var s, log := Run(sha, Initial(first), calls), Log(sha, Initial(first), calls);
    RunIsTraced(sha, first, calls);
    RunConserves(sha, first, calls);
    if Step(sha, s, call).1.Ok? {
      StepMoves(sha, s, call);
      MovesReturn(sha, s, log, first, Step(sha, s, call).0, Entry(call, Step(sha, s, call).1.value));
    }
    match call.op {
      case CreatePayout(_, _, _, _) => PullsWelcome(sha, s, log, first, call);
      case Claim(_, _, _) => PullsWelcome(sha, s, log, first, call);
      case Sweep(_, _) => PullsWelcome(sha, s, log, first, call);
      case Register(_, _, _) => BindingsWelcome(sha, s, log, first, call);
      case Rotate(_, _, _) => BindingsWelcome(sha, s, log, first, call);
      case AwardCommitment(_, r, _, _) =>
        RewardedTraced(sha, s, log, r);
        AwardsWelcome(sha, s, log, first, call);
      case ClaimByCommitment(_, _, _) => CollectsWelcome(sha, s, log, first, call);
      case AwardNow(_, _, _, r, _) =>
        RewardedTraced(sha, s, log, r);
        PushesWelcome(sha, s, log, first, call);
      case Disclose(r, _) =>
        RewardedTraced(sha, s, log, r);
        DisclosesWelcome(sha, s, log, first, call);
      case _ => PlainWelcome(sha, s, log, first, call);
    }
  }

  /** What an accepted call returns: the amount paid or swept, the new payout's id, or the commitment bound. */
  function Returned(sha: nat -> nat, log: seq<Entry>, call: Call): Option<int> {
    match call.op
    case CreatePayout(_, _, _, _) => Some(Count(log, Reserving()))
    case Claim(_, id, _) => AmountBy(Last(log, Creates(id)))
    case Sweep(id, _) => AmountBy(Last(log, Creates(id)))
    case ClaimByCommitment(_, preimage, _) => AmountBy(Last(log, Adjudicates(sha(preimage))))
    case Register(_, preimage, _) => Some(sha(preimage))
    case _ => Some(0)
  }

  function AmountBy(e: Option<Entry>): Option<int> {
    match e
    case Some(f) =>
      if f.call.op.CreatePayout? then Some(f.call.op.amount)
      else if f.call.op.AwardCommitment? then Some(f.call.op.amount)
      else None
    case None => None
  }

  lemma MovesReturn(sha: nat -> nat, s: State, log: seq<Entry>, first: nat, t: State, e: Entry)
    requires Moves(sha, s, t, e) && HistoryOk(sha, s, log, first)
    ensures Some(e.value) == Returned(sha, log, e.call)
  {
    if e.call.op.Claim? || e.call.op.Sweep? {
      assert PayoutOk(s, log, e.call.op.id);
    } else if e.call.op.ClaimByCommitment? {
      assert CommitmentOk(sha, s, log, sha(e.call.op.preimage));
    }
  }

  lemma RewardedTraced(sha: nat -> nat, s: State, log: seq<Entry>, r: nat)
    requires ReportOk(s, log, r) && RewardOk(sha, s, log, r)
    ensures r in s.awards <==> RewardedBy(sha, log, r)
  {
  }

  lemma PullsWelcome(sha: nat -> nat, s: State, log: seq<Entry>, first: nat, call: Call)
    requires Inv(s) && HistoryOk(sha, s, log, first) && (call.op.CreatePayout? || call.op.Claim? || call.op.Sweep?)
    ensures Step(sha, s, call).1.Ok? <==> Welcome(sha, log, first, s.balance, Available(s), call)
  {
    if call.op.CreatePayout? {
      assert AddressOk(s, log, call.op.recipient);
    } else {
      var id := call.op.id;
      assert PayoutOk(s, log, id);
      if id in s.payouts && s.payouts[id].status.Pending? {
        SettleReserves(s, id, Claimed, call.op.transferOk);
        SettleReserves(s, id, Swept, call.op.transferOk);
      }
    }
  }

  lemma BindingsWelcome(sha: nat -> nat, s: State, log: seq<Entry>, first: nat, call: Call)
    requires HistoryOk(sha, s, log, first) && (call.op.Register? || call.op.Rotate?)
    ensures Step(sha, s, call).1.Ok? <==> Welcome(sha, log, first, s.balance, Available(s), call)
  {
    assert AddressOk(s, log, call.op.payoutAddress);
    assert BindingOk(sha, s, log, sha(call.op.preimage)) && CommitmentOk(sha, s, log, sha(call.op.preimage));
  }

  lemma AwardsWelcome(sha: nat -> nat, s: State, log: seq<Entry>, first: nat, call: Call)
    requires HistoryOk(sha, s, log, first) && call.op.AwardCommitment?
    requires call.op.reportHash in s.awards <==> RewardedBy(sha, log, call.op.reportHash)
    ensures Step(sha, s, call).1.Ok? <==> Welcome(sha, log, first, s.balance, Available(s), call)
  {
    assert ReportOk(s, log, call.op.reportHash);
    assert BindingOk(sha, s, log, call.op.commitment) && CommitmentOk(sha, s, log, call.op.commitment);
  }

  lemma CollectsWelcome(sha: nat -> nat, s: State, log: seq<Entry>, first: nat, call: Call)
    requires Inv(s) && HistoryOk(sha, s, log, first) && call.op.ClaimByCommitment?
    ensures Step(sha, s, call).1.Ok? <==> Welcome(sha, log, first, s.balance, Available(s), call)
  {
    var c := sha(call.op.preimage);
    assert BindingOk(sha, s, log, c) && CommitmentOk(sha, s, log, c);
    if c in s.bindings {
      assert AddressOk(s, log, s.bindings[c].payoutAddress);
    }
    ClaimByCommitmentReserves(s, call.op.caller, c, call.op.transferOk, call.now);
  }

  lemma PushesWelcome(sha: nat -> nat, s: State, log: seq<Entry>, first: nat, call: Call)
    requires Inv(s) && HistoryOk(sha, s, log, first) && call.op.AwardNow?
    requires call.op.reportHash in s.awards <==> RewardedBy(sha, log, call.op.reportHash)
    ensures Step(sha, s, call).1.Ok? <==> Welcome(sha, log, first, s.balance, Available(s), call)
  {
    assert AddressOk(s, log, call.op.researcher);
  }

  lemma DisclosesWelcome(sha: nat -> nat, s: State, log: seq<Entry>, first: nat, call: Call)
    requires HistoryOk(sha, s, log, first) && call.op.Disclose?
    requires call.op.reportHash in s.awards <==> RewardedBy(sha, log, call.op.reportHash)
    ensures Step(sha, s, call).1.Ok? <==> Welcome(sha, log, first, s.balance, Available(s), call)
  {
    assert ReportOk(s, log, call.op.reportHash);
    assert BindingOk(sha, s, log, call.op.commitment);
  }

  lemma PlainWelcome(sha: nat -> nat, s: State, log: seq<Entry>, first: nat, call: Call)
    requires Inv(s) && HistoryOk(sha, s, log, first)
    requires call.op.SetGovernance? || call.op.Fund? || call.op.Freeze? || call.op.Screen?
    ensures Step(sha, s, call).1.Ok? <==> Welcome(sha, log, first, s.balance, Available(s), call)
  {
  }
}
