/** Reviews, conflicts and approvals, traced back to the calls that were accepted. */
module ReviewHistory {
  import opened Results
  import opened History
  import opened Review

  /** The accepted calls. */
  function Log(s: State, calls: seq<Call>): seq<Op> {
    if calls == [] then []
    else
      var n := |calls| - 1;
      var r := Step(Run(s, calls[..n]), calls[n].who, calls[n].op).1;
      Log(s, calls[..n]) + if r.Ok? then [calls[n].op] else []
  }

  function Registers(reviewer: nat): Op -> bool {
    (op: Op) => op.Register? && op.reviewer == reviewer
  }

  /** Registered, switched on or switched off. */
  function Switches(reviewer: nat): Op -> bool {
    (op: Op) => (op.Register? || op.SetActive?) && op.reviewer == reviewer
  }

  function SetsQuorum(): Op -> bool {
    (op: Op) => op.SetQuorum?
  }

  function Conflicts(key: Key): Op -> bool {
    (op: Op) => (op.Declare? || op.Flag?) && op.grant == key.grant && op.reviewer == key.reviewer
  }

  function ConflictsOrWaives(key: Key): Op -> bool {
    (op: Op) => (op.Declare? || op.Flag? || op.Waive?) && op.grant == key.grant && op.reviewer == key.reviewer
  }

  function AssignsOrConflicts(key: Key): Op -> bool {
    (op: Op) => (op.Declare? || op.Flag? || op.Assign?) && op.grant == key.grant && op.reviewer == key.reviewer
  }

  function Submits(key: Key): Op -> bool {
    (op: Op) => op.Submit? && op.grant == key.grant && op.reviewer == key.reviewer
  }

  function SubmitsOrConflicts(key: Key): Op -> bool {
    (op: Op) => (op.Declare? || op.Flag? || op.Submit?) && op.grant == key.grant && op.reviewer == key.reviewer
  }

  predicate ActiveBy(log: seq<Op>, reviewer: nat) {
    match Last(log, Switches(reviewer))
    case Some(op) => op.Register? || (op.SetActive? && op.active)
    case None => false
  }

  predicate AssignedBy(log: seq<Op>, key: Key) {
    match Last(log, AssignsOrConflicts(key))
    case Some(op) => op.Assign?
    case None => false
  }

  predicate ConflictedBy(log: seq<Op>, key: Key) {
    match Last(log, ConflictsOrWaives(key))
    case Some(op) => !op.Waive?
    case None => false
  }

  /** The review that stands: the last one submitted, unless a conflict came after it. */
  function StandingBy(log: seq<Op>, key: Key): Option<Op> {
    match Last(log, SubmitsOrConflicts(key))
    case Some(op) => if op.Submit? then Some(op) else None
    case None => None
  }

  /** A review stood when the last conflict was raised. */
  predicate LateBy(log: seq<Op>, key: Key) {
    log != [] &&
      var n := |log| - 1;
      if Conflicts(key)(log[n]) then StandingBy(log[..n], key).Some? else LateBy(log[..n], key)
  }

  function QuorumBy(log: seq<Op>): nat {
    match Last(log, SetsQuorum())
    case Some(op) => if op.SetQuorum? then op.quorum else 0
    case None => 0
  }

  ghost predicate ReviewerOk(s: State, log: seq<Op>, reviewer: nat) {
    var e := Last(log, Registers(reviewer));
    && (reviewer in s.reviewers <==> e.Some?)
    && (e.None? ==> Last(log, Switches(reviewer)).None?)
    && (reviewer in s.reviewers && e.Some? && e.value.Register? ==>
          s.reviewers[reviewer] == Info(e.value.role, ActiveBy(log, reviewer)))
  }

  /** The conflict on record is the last one raised, and is waived if a waiver came after it. */
  ghost predicate ConflictOk(s: State, log: seq<Op>, key: Key) {
    var e := Last(log, Conflicts(key));
    && (key in s.conflicts <==> e.Some?) && (e.None? ==> Last(log, ConflictsOrWaives(key)).None?)
    && (key in s.conflicts && e.Some? && (e.value.Declare? || e.value.Flag?) ==>
          s.conflicts[key] == Conflict(e.value.kind, e.value.evidence, e.value.Flag?, LateBy(log, key),
                                       !ConflictedBy(log, key)))
  }

  /** The verdict on record is the last one submitted, valid unless a conflict came after it. */
  ghost predicate VerdictOk(s: State, log: seq<Op>, key: Key) {
    var e := Last(log, Submits(key));
    && (key in s.reviews <==> e.Some?) && (e.None? ==> StandingBy(log, key).None?)
    && (key in s.reviews && e.Some? && e.value.Submit? ==>
          && s.reviews[key] == Verdict(e.value.score, e.value.approve, StandingBy(log, key).Some?)
          && (StandingBy(log, key).Some? ==> StandingBy(log, key) == e))
  }

  ghost predicate HistoryOk(s: State, log: seq<Op>) {
    && s.quorum == QuorumBy(log)
    && (forall reviewer :: ReviewerOk(s, log, reviewer))
    && (forall key :: ConflictOk(s, log, key))
    && (forall key :: VerdictOk(s, log, key))
    && (forall key :: key in s.assignments <==> AssignedBy(log, key))
  }

  // ---------------------------------------------------------------------
  // One call
  // ---------------------------------------------------------------------

  /** What an accepted call changes, and what it found when it did. */
  ghost predicate Effect(s: State, t: State, op: Op) {
    match op
    case Register(caller, reviewer, role) =>
      && caller == s.governance && reviewer !in s.reviewers
      && t == s.(reviewers := s.reviewers[reviewer := Info(role, true)])
    case SetActive(caller, reviewer, active) =>
      && caller == s.governance && reviewer in s.reviewers
      && t == s.(reviewers := s.reviewers[reviewer := s.reviewers[reviewer].(active := active)])
    case SetQuorum(caller, quorum) => caller == s.governance && t == s.(quorum := quorum)
    case Assign(caller, grant, reviewer) =>
      caller == s.governance && t == s.(assignments := s.assignments + {Key(grant, reviewer)})
    case Submit(reviewer, grant, score, approve) =>
      score <= MAX_SCORE && t == s.(reviews := s.reviews[Key(grant, reviewer) := Verdict(score, approve, true)])
    case Declare(reviewer, grant, kind, evidence) => Raised(s, t, Key(grant, reviewer), kind, evidence, false)
    case Flag(caller, grant, reviewer, kind, evidence) =>
      caller == s.governance && Raised(s, t, Key(grant, reviewer), kind, evidence, true)
    case Waive(caller, grant, reviewer) =>
      && caller == s.governance && HasConflict(s, Key(grant, reviewer))
      && t == s.(conflicts := s.conflicts[Key(grant, reviewer) := s.conflicts[Key(grant, reviewer)].(waived := true)])
  }

  /** A conflict comes on record, the reviewer loses the assignment, and a review by it is no longer valid. */
  ghost predicate Raised(s: State, t: State, key: Key, kind: ConflictKind, evidence: Option<nat>, flagged: bool) {
    && !HasConflict(s, key)
    && t == s.(conflicts := s.conflicts[key := Conflict(kind, evidence, flagged, key in s.reviews && s.reviews[key].valid,
                                                        false)],
               assignments := s.assignments - {key},
               reviews := if key in s.reviews then s.reviews[key := s.reviews[key].(valid := false)] else s.reviews)
  }

  lemma StepEffect(s: State, who: map<nat, nat>, op: Op)
    ensures var (t, r) := Step(s, who, op);
            (r.Err? ==> t == s) && (r.Ok? ==> Effect(s, t, op))
  {
  }

  lemma ReviewerTraced(s: State, t: State, log: seq<Op>, op: Op, reviewer: nat)
    requires Effect(s, t, op) && ReviewerOk(s, log, reviewer)
    ensures ReviewerOk(t, log + [op], reviewer)
  {
    LastSnoc(log, op, Registers(reviewer));
    LastSnoc(log, op, Switches(reviewer));
  }

  lemma ConflictTraced(s: State, t: State, log: seq<Op>, op: Op, key: Key)
    requires Effect(s, t, op) && ConflictOk(s, log, key) && VerdictOk(s, log, key)
    ensures ConflictOk(t, log + [op], key)
  {
    LastSnoc(log, op, Conflicts(key));
    LastSnoc(log, op, ConflictsOrWaives(key));
    assert (log + [op])[..|log|] == log;
  }

  lemma VerdictTraced(s: State, t: State, log: seq<Op>, op: Op, key: Key)
    requires Effect(s, t, op) && VerdictOk(s, log, key)
    ensures VerdictOk(t, log + [op], key)
  {
    LastSnoc(log, op, Submits(key));
    LastSnoc(log, op, SubmitsOrConflicts(key));
  }

  lemma EffectTraced(s: State, t: State, log: seq<Op>, op: Op)
    requires Effect(s, t, op) && HistoryOk(s, log)
    ensures HistoryOk(t, log + [op])
  {
    LastSnoc(log, op, SetsQuorum());
    forall reviewer ensures ReviewerOk(t, log + [op], reviewer) {
      ReviewerTraced(s, t, log, op, reviewer);
    }
    forall key ensures ConflictOk(t, log + [op], key) && VerdictOk(t, log + [op], key) {
      ConflictTraced(s, t, log, op, key);
      VerdictTraced(s, t, log, op, key);
    }
    forall key ensures key in t.assignments <==> AssignedBy(log + [op], key) {
      LastSnoc(log, op, AssignsOrConflicts(key));
    }
  }

  /**
   * On every run, a review on record has the score and the verdict of the last
   * one its reviewer submitted, and is valid unless a conflict came after it;
   * and roles, activity, conflicts, assignments and the quorum are what the
   * last call about them said.
   */
  lemma {:induction false} RunIsTraced(governance: nat, calls: seq<Call>)
    ensures HistoryOk(Run(Initial(governance), calls), Log(Initial(governance), calls))
    ensures Run(Initial(governance), calls).governance == governance
  {
    if calls != [] {
      var n := |calls| - 1;
      var s, log := Run(Initial(governance), calls[..n]), Log(Initial(governance), calls[..n]);
      RunIsTraced(governance, calls[..n]);
      StepEffect(s, calls[n].who, calls[n].op);
      if Step(s, calls[n].who, calls[n].op).1.Ok? {
        EffectTraced(s, Step(s, calls[n].who, calls[n].op).0, log, calls[n].op);
      } else {
        assert log + [] == log;
      }
    }
  }

  // ---------------------------------------------------------------------
  // What counts and what is accepted
  // ---------------------------------------------------------------------

  /** A grant's quorum counts exactly those active reviewers whose standing review approves. */
  lemma ApprovalsByHistory(governance: nat, calls: seq<Call>, who: map<nat, nat>, key: Key)
    requires Growing(calls, who)
    ensures var s, log := Run(Initial(governance), calls), Log(Initial(governance), calls);
            key in Approvals(s, who, key.grant) <==>
              && StandingBy(log, key).Some? && StandingBy(log, key).value.Submit? && StandingBy(log, key).value.approve
              && ActiveBy(log, key.reviewer)
  {
    var s, log := Run(Initial(governance), calls), Log(Initial(governance), calls);
    RunIsTraced(governance, calls);
    RunKeeps(governance, calls, who);
    ApprovalsAreValid(s, who, key);
    assert VerdictOk(s, log, key) && ReviewerOk(s, log, key.reviewer) && KeyOk(s, who, key);
  }

  /** The quorum last set is met exactly when that many keys of the grant have an approving standing review that counts. */
  lemma QuorumByHistory(governance: nat, calls: seq<Call>, who: map<nat, nat>, grant: nat, approving: set<Key>)
    requires Growing(calls, who)
    requires forall key :: key in approving <==>
               && key.grant == grant && ActiveBy(Log(Initial(governance), calls), key.reviewer)
               && (match StandingBy(Log(Initial(governance), calls), key)
                   case Some(op) => op.Submit? && op.approve
                   case None => false)
    ensures QuorumMet(Run(Initial(governance), calls), who, grant)
       <==> |approving| >= QuorumBy(Log(Initial(governance), calls))
  {
    var s := Run(Initial(governance), calls);
    RunIsTraced(governance, calls);
    forall key
      ensures key in approving <==> key in Approvals(s, who, grant)
    {
      ApprovalsByHistory(governance, calls, who, key);
    }
    assert approving == Approvals(s, who, grant);
  }

  /**
   * The check lets a reviewer through exactly if an assignment has not been
   * followed by a conflict, and a registration or activation not by a
   * deactivation. That the grant exists, is someone else's and is free of
   * conflict is implied.
   */
  lemma EligibleByHistory(governance: nat, calls: seq<Call>, who: map<nat, nat>, key: Key)
    requires Growing(calls, who)
    ensures var s, log := Run(Initial(governance), calls), Log(Initial(governance), calls);
            RequireEligible(s, who, key).Ok? <==> AssignedBy(log, key) && ActiveBy(log, key.reviewer)
  {
    var s, log := Run(Initial(governance), calls), Log(Initial(governance), calls);
    RunIsTraced(governance, calls);
    RunKeeps(governance, calls, who);
    EligibleExactly(s, who, key);
    assert ReviewerOk(s, log, key.reviewer) && KeyOk(s, who, key);
  }

  /** What the accepted calls so far allow. */
  predicate Welcome(log: seq<Op>, governance: nat, who: map<nat, nat>, op: Op) {
    match op
    case Register(caller, reviewer, _) => caller == governance && Last(log, Registers(reviewer)).None?
    case SetActive(caller, reviewer, _) => caller == governance && Last(log, Registers(reviewer)).Some?
    case SetQuorum(caller, _) => caller == governance
    case Assign(caller, grant, reviewer) =>
      && caller == governance && !AssignedBy(log, Key(grant, reviewer)) && ActiveBy(log, reviewer)
      && grant in who && who[grant] != reviewer && !ConflictedBy(log, Key(grant, reviewer))
    case Submit(reviewer, grant, score, _) =>
      && AssignedBy(log, Key(grant, reviewer)) && ActiveBy(log, reviewer) && score <= MAX_SCORE
      && StandingBy(log, Key(grant, reviewer)).None?
    case Declare(reviewer, grant, _, _) =>
      Last(log, Registers(reviewer)).Some? && grant in who && !ConflictedBy(log, Key(grant, reviewer))
    case Flag(caller, grant, reviewer, _, _) =>
      && caller == governance && Last(log, Registers(reviewer)).Some? && grant in who
      && !ConflictedBy(log, Key(grant, reviewer))
    case Waive(caller, grant, reviewer) => caller == governance && ConflictedBy(log, Key(grant, reviewer))
  }

  /** After any run, the accepted calls before it decide whether a call is accepted. */
  lemma AcceptedByHistory(governance: nat, calls: seq<Call>, who: map<nat, nat>, op: Op)
    requires Growing(calls, who)
    ensures Step(Run(Initial(governance), calls), who, op).1.Ok?
       <==> Welcome(Log(Initial(governance), calls), governance, who, op)
  {
    var s, log := Run(Initial(governance), calls), Log(Initial(governance), calls);
    RunIsTraced(governance, calls);
    RunKeeps(governance, calls, who);
    if op.Register? || op.SetActive? || op.SetQuorum? {
      OfficeWelcome(s, log, who, op);
    } else {
      KeyWelcome(s, log, who, op, Key(op.grant, op.reviewer));
    }
  }

  lemma OfficeWelcome(s: State, log: seq<Op>, who: map<nat, nat>, op: Op)
    requires HistoryOk(s, log) && (op.Register? || op.SetActive? || op.SetQuorum?)
    ensures Step(s, who, op).1.Ok? <==> Welcome(log, s.governance, who, op)
  {
    if !op.SetQuorum? {
      assert ReviewerOk(s, log, op.reviewer);
    }
  }

  lemma KeyWelcome(s: State, log: seq<Op>, who: map<nat, nat>, op: Op, key: Key)
    requires HistoryOk(s, log) && Inv(s, who) && !op.Register? && !op.SetActive? && !op.SetQuorum?
    requires key == Key(op.grant, op.reviewer)
    ensures Step(s, who, op).1.Ok? <==> Welcome(log, s.governance, who, op)
  {
    assert ReviewerOk(s, log, op.reviewer) && ConflictOk(s, log, key) && VerdictOk(s, log, key) && KeyOk(s, who, key);
    assert key in s.assignments <==> AssignedBy(log, key);
    KeyDecided(s, log, who, op, key);
  }

  lemma KeyDecided(s: State, log: seq<Op>, who: map<nat, nat>, op: Op, key: Key)
    requires !op.Register? && !op.SetActive? && !op.SetQuorum? && key == Key(op.grant, op.reviewer)
    requires ReviewerOk(s, log, op.reviewer) && ConflictOk(s, log, key) && VerdictOk(s, log, key) && KeyOk(s, who, key)
    requires key in s.assignments <==> AssignedBy(log, key)
    ensures Step(s, who, op).1.Ok? <==> Welcome(log, s.governance, who, op)
  {
  }
}
