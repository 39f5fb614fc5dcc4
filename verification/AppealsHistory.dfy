/** An appeal case, traced back to the calls that were accepted. */
module AppealsHistory {
  import opened Results
  import opened History
  import opened Appeals

  /** The accepted calls. */
  function Log(s: State, calls: seq<Call>): seq<Call> {
    if calls == [] then []
    else
      var n := |calls| - 1;
      Log(s, calls[..n]) + if Step(Run(s, calls[..n]), calls[n]).1.Ok? then [calls[n]] else []
  }

  function Submits(): Call -> bool {
    (c: Call) => c.op.Submit?
  }

  function Assigns(): Call -> bool {
    (c: Call) => c.op.Assign?
  }

  function Reopens(): Call -> bool {
    (c: Call) => c.op.Reopen?
  }

  function DecidesOrReopens(): Call -> bool {
    (c: Call) => c.op.Decide? || c.op.Reopen?
  }

  /** A ballot, an escalation or a decision: what can settle a round. */
  function Settles(): Call -> bool {
    (c: Call) => c.op.Review? || c.op.Escalate? || c.op.Decide?
  }

  /** A ballot of this member, or what starts the voting afresh. */
  function BallotsOrRestarts(m: nat): Call -> bool {
    (c: Call) => c.op.Submit? || c.op.Assign? || (c.op.Review? && c.op.member == m)
  }

  /** Panels assigned since the appeal under way was filed. */
  function PanelsBy(log: seq<Call>): nat {
    if log == [] then 0
    else
      var c := log[|log| - 1];
      if c.op.Submit? then 0 else PanelsBy(log[..|log| - 1]) + if c.op.Assign? then 1 else 0
  }

  lemma PanelsSnoc(log: seq<Call>, c: Call)
    ensures PanelsBy(log + [c]) == if c.op.Submit? then 0 else PanelsBy(log) + if c.op.Assign? then 1 else 0
  {
    assert (log + [c])[..|log|] == log;
  }

  /** The ballot a member cast on the panel now assigned. */
  function BallotBy(log: seq<Call>, m: nat): Option<Call> {
    match Last(log, BallotsOrRestarts(m))
    case Some(c) => if c.op.Review? then Some(c) else None
    case None => None
  }

  /** The timelock's decision in force. */
  function DecisionBy(log: seq<Call>): Option<Call> {
    match Last(log, DecidesOrReopens())
    case Some(c) => if c.op.Decide? then Some(c) else None
    case None => None
  }

  function DecidedAtBy(log: seq<Call>, first: u64): u64 {
    match Last(log, Reopens())
    case Some(c) => c.now
    case None => first
  }

  /** The round under way is the last appeal filed, before the last panel assigned to it. */
  ghost predicate RoundTraced(s: State, log: seq<Call>)
    requires s.appealsUsed in s.appeals
  {
    var a, e := s.appeals[s.appealsUsed], Last(log, Submits());
    && e.Some? && e.value.op.Submit? && a.evidence == e.value.op.evidence && a.submittedAt == e.value.now
    && a.version == PanelsBy(log)
    && (if a.version == 0 then a.panel == [] && a.assignedAt == 0
        else
          var p := Last(log, Assigns());
          p.Some? && p.value.op.Assign? && a.panel == p.value.op.panel && a.assignedAt == p.value.now)
  }

  /** A stored vote of the panel now assigned is the ballot its member cast. */
  ghost predicate BallotTraced(s: State, log: seq<Call>, m: nat)
    requires s.appealsUsed in s.appeals
  {
    var key := VoteKey(s.appealsUsed, s.appeals[s.appealsUsed].version, m);
    && (key in s.votes <==> BallotBy(log, m).Some?)
    && (key in s.votes && BallotBy(log, m).value.op.Review? ==>
          s.votes[key] == VoteRecord(BallotBy(log, m).value.op.vote, BallotBy(log, m).value.op.reviewHash,
                                     BallotBy(log, m).value.now))
  }

  /** How the round under way was settled, if it was. */
  ghost predicate SettledTraced(s: State, log: seq<Call>)
    requires s.appealsUsed in s.appeals
  {
    var a := s.appeals[s.appealsUsed];
    && (s.status == Escalated || s.status == Upheld || s.status == Overturned ==>
          Last(log, Settles()).Some? && a.resolvedAt == Last(log, Settles()).value.now)
    && (s.status == AppealSubmitted || s.status == UnderReReview ==> a.resolvedAt == 0)
    && (s.status != Rejected ==> a.finalized == s.finalized && (!s.finalized ==> a.reason == 0))
  }

  /** A finalized case is what the timelock's last decision made it. */
  ghost predicate DecisionTraced(s: State, log: seq<Call>) {
    && (s.finalized <==> DecisionBy(log).Some?)
    && (s.finalized ==>
          var d := DecisionBy(log).value;
          && d.op.Decide? && d.op.caller == s.timelock && s.appealsUsed in s.appeals
          && var a := s.appeals[s.appealsUsed];
          && s.status == (if d.op.overturn then Overturned else Upheld)
          && a.outcome == (if d.op.overturn then FoundOverturned else FoundUpheld)
          && a.reason == d.op.reason && a.resolvedAt == d.now && a.finalized)
  }

  ghost predicate HistoryOk(s: State, log: seq<Call>, first: u64) {
    && s.appealsUsed == Count(log, Submits()) && s.appealsAllowed == 1 + Count(log, Reopens())
    && s.decidedAt == DecidedAtBy(log, first)
    && (s.appealsUsed in s.appeals ==>
          RoundTraced(s, log) && SettledTraced(s, log) && forall m :: BallotTraced(s, log, m))
    && (s.appealsUsed !in s.appeals ==> s.appealsUsed == 0 && s.status == Rejected)
    && DecisionTraced(s, log)
  }

  // ---------------------------------------------------------------------
  // One call
  // ---------------------------------------------------------------------

  /** The part of a round that ballots and verdicts leave alone. */
  predicate SameFiling(a: Appeal, b: Appeal) {
    && b.evidence == a.evidence && b.submittedAt == a.submittedAt && b.panel == a.panel && b.version == a.version
    && b.assignedAt == a.assignedAt
  }

  /** What an accepted call changes, and what it found when it did. */
  ghost predicate Effect(s: State, t: State, c: Call) {
    && t.governance == s.governance && t.timelock == s.timelock && t.applicant == s.applicant
    && t.reviewers == s.reviewers
    && match c.op
       case Submit(applicant, evidence) =>
         && applicant == s.applicant && s.status == Rejected && s.appealsUsed < s.appealsAllowed
         && t == s.(appealsUsed := s.appealsUsed + 1, status := AppealSubmitted,
                    appeals := s.appeals[s.appealsUsed + 1 := Appeal(evidence, c.now, [], 0, 0, 0, 0, 0, Open, 0, false, 0)])
       case Assign(caller, panel) =>
         && caller == s.governance && (s.status == AppealSubmitted || s.status == UnderReReview)
         && s.appealsUsed in s.appeals
         && t == s.(status := UnderReReview,
                    appeals := s.appeals[s.appealsUsed :=
                      s.appeals[s.appealsUsed].(panel := panel, version := s.appeals[s.appealsUsed].version + 1,
                                                assignedAt := c.now, uphold := 0, overturn := 0, escalate := 0)])
       case Review(m, vote, reviewHash) =>
         && s.status == UnderReReview && s.appealsUsed in s.appeals && s.appealsUsed in t.appeals
         && var a, b := s.appeals[s.appealsUsed], t.appeals[s.appealsUsed];
         && m in a.panel && VoteKey(s.appealsUsed, a.version, m) !in s.votes
         && t == s.(status := t.status, appeals := s.appeals[s.appealsUsed := b],
                    votes := s.votes[VoteKey(s.appealsUsed, a.version, m) := VoteRecord(vote, reviewHash, c.now)])
         && SameFiling(a, b) && b.finalized == a.finalized && b.reason == a.reason
         && (t.status == UnderReReview || t.status == Escalated || t.status == Upheld || t.status == Overturned)
         && b.resolvedAt == (if t.status == UnderReReview then a.resolvedAt else c.now)
       case Escalate =>
         && (s.status == AppealSubmitted || s.status == UnderReReview) && s.appealsUsed in s.appeals
         && t == s.(status := Escalated,
                    appeals := s.appeals[s.appealsUsed :=
                      s.appeals[s.appealsUsed].(outcome := FoundEscalated, resolvedAt := c.now)])
       case Decide(caller, overturn, reason) =>
         && caller == s.timelock && (s.status == Escalated || s.status == Upheld || s.status == Overturned)
         && s.appealsUsed in s.appeals
         && t == s.(status := if overturn then Overturned else Upheld, finalized := true,
                    appeals := s.appeals[s.appealsUsed :=
                      s.appeals[s.appealsUsed].(outcome := if overturn then FoundOverturned else FoundUpheld,
                                                resolvedAt := c.now, finalized := true, reason := reason)])
       case Reopen(caller) =>
         && caller == s.timelock && s.status == Upheld
         && t == s.(appealsAllowed := s.appealsAllowed + 1, status := Rejected, decidedAt := c.now, finalized := false)
  }

  lemma StepEffect(s: State, c: Call)
    ensures var (t, r) := Step(s, c);
            (r.Err? ==> t == s) && (r.Ok? ==> r.value == t.status && Effect(s, t, c))
  {
    match c.op {
      case Review(m, vote, reviewHash) => ReviewEffect(s, m, vote, reviewHash, c.now);
      case _ =>
    }
  }

  lemma ReviewEffect(s: State, m: nat, vote: Vote, reviewHash: nat, now: u64)
    ensures var (t, r) := DoReview(s, m, vote, reviewHash, now);
            (r.Err? ==> t == s) && (r.Ok? ==> r.value == t.status && Effect(s, t, Call(Review(m, vote, reviewHash), now)))
  {
  }

  lemma CountsTraced(s: State, t: State, log: seq<Call>, c: Call, first: u64)
    requires Effect(s, t, c) && s.appealsUsed == Count(log, Submits()) && s.appealsAllowed == 1 + Count(log, Reopens())
    requires s.decidedAt == DecidedAtBy(log, first)
    ensures t.appealsUsed == Count(log + [c], Submits()) && t.appealsAllowed == 1 + Count(log + [c], Reopens())
    ensures t.decidedAt == DecidedAtBy(log + [c], first)
  {
    CountSnoc(log, c, Submits());
    CountSnoc(log, c, Reopens());
    LastSnoc(log, c, Reopens());
  }

  lemma RoundStep(s: State, t: State, log: seq<Call>, c: Call)
    requires Inv(s) && Effect(s, t, c) && t.appealsUsed in t.appeals
    requires s.appealsUsed in s.appeals ==> RoundTraced(s, log)
    ensures RoundTraced(t, log + [c])
  {
    LastSnoc(log, c, Submits());
    LastSnoc(log, c, Assigns());
    PanelsSnoc(log, c);
  }

  lemma BallotStep(s: State, t: State, log: seq<Call>, c: Call, m: nat)
    requires Inv(s) && Effect(s, t, c) && t.appealsUsed in t.appeals
    requires s.appealsUsed in s.appeals ==> BallotTraced(s, log, m)
    ensures BallotTraced(t, log + [c], m)
  {
    LastSnoc(log, c, BallotsOrRestarts(m));
  }

  lemma SettledStep(s: State, t: State, log: seq<Call>, c: Call)
    requires Inv(s) && Effect(s, t, c) && t.appealsUsed in t.appeals
    requires s.appealsUsed in s.appeals ==> SettledTraced(s, log)
    ensures SettledTraced(t, log + [c])
  {
    LastSnoc(log, c, Settles());
  }

  lemma DecisionStep(s: State, t: State, log: seq<Call>, c: Call)
    requires Inv(s) && Effect(s, t, c) && DecisionTraced(s, log)
    ensures DecisionTraced(t, log + [c])
  {
    LastSnoc(log, c, DecidesOrReopens());
  }

  lemma EffectTraced(s: State, t: State, log: seq<Call>, c: Call, first: u64)
    requires Inv(s) && Inv(t) && Effect(s, t, c) && HistoryOk(s, log, first)
    ensures HistoryOk(t, log + [c], first)
  {
    CountsTraced(s, t, log, c, first);
    DecisionStep(s, t, log, c);
    if t.appealsUsed in t.appeals {
      RoundStep(s, t, log, c);
      SettledStep(s, t, log, c);
      forall m ensures BallotTraced(t, log + [c], m) {
        BallotStep(s, t, log, c, m);
      }
    }
  }

  /**
   * On every run: the round under way is the last appeal filed with the last
   * panel assigned to it, its votes are the ballots cast since, it was settled
   * by the last ballot, escalation or decision; and a case is finalized if and
   * only if the timelock decided it and has not reopened it since, with the
   * status, verdict, reason and time of that decision.
   */
  lemma {:induction false} RunIsTraced(governance: nat, timelock: nat, applicant: nat, reviewers: seq<nat>, decidedAt: u64,
                                       calls: seq<Call>)
    ensures var start := Initial(governance, timelock, applicant, reviewers, decidedAt);
            var t := Run(start, calls);
            && HistoryOk(t, Log(start, calls), decidedAt)
            && t.governance == governance && t.timelock == timelock && t.applicant == applicant && t.reviewers == reviewers
  {
    if calls != [] {
      var n := |calls| - 1;
      var start := Initial(governance, timelock, applicant, reviewers, decidedAt);
      var s, log := Run(start, calls[..n]), Log(start, calls[..n]);
      RunIsTraced(governance, timelock, applicant, reviewers, decidedAt, calls[..n]);
      RunKeeps(start, calls[..n]);
      RunKeeps(start, calls);
      StepEffect(s, calls[n]);
      if Step(s, calls[n]).1.Ok? {
        EffectTraced(s, Run(start, calls), log, calls[n], decidedAt);
      } else {
        assert log + [] == log;
      }
    }
  }

  // ---------------------------------------------------------------------
  // What is accepted
  // ---------------------------------------------------------------------

  /** What the status of the case and the accepted calls so far allow. */
  ghost predicate Welcome(s: State, log: seq<Call>, c: Call) {
    match c.op
    case Submit(applicant, _) =>
      && applicant == s.applicant && s.status == Rejected
      && Count(log, Submits()) <= Count(log, Reopens()) && c.now <= SaturatingAddU64(s.decidedAt, APPEAL_WINDOW_SECS)
    case Assign(caller, panel) =>
      && caller == s.governance && (s.status == AppealSubmitted || s.status == UnderReReview)
      && 1 <= |panel| <= MAX_PANEL && (forall i, j :: 0 <= i < j < |panel| ==> panel[i] != panel[j])
      && s.applicant !in panel && (forall m :: m in panel ==> m !in s.reviewers) && PanelsBy(log) != U32_MAX
    case Review(m, _, _) =>
      && s.status == UnderReReview && Last(log, Assigns()).Some? && Last(log, Assigns()).value.op.Assign?
      && m in Last(log, Assigns()).value.op.panel && BallotBy(log, m).None?
    case Escalate =>
      || (s.status == AppealSubmitted && Last(log, Submits()).Some?
          && c.now > Last(log, Submits()).value.now + REREVIEW_TIMEOUT_SECS)
      || (s.status == UnderReReview && Last(log, Assigns()).Some?
          && c.now > Last(log, Assigns()).value.now + REREVIEW_TIMEOUT_SECS)
    case Decide(caller, _, _) =>
      caller == s.timelock && (s.status == Escalated || s.status == Upheld || s.status == Overturned)
    case Reopen(caller) => caller == s.timelock && s.status == Upheld && Count(log, Reopens()) + 1 < U32_MAX
  }

  /**
   * After any run, the status and the accepted calls before it decide whether
   * a call is accepted; it then returns the new status, and else changes nothing.
   */
  lemma AcceptedByHistory(governance: nat, timelock: nat, applicant: nat, reviewers: seq<nat>, decidedAt: u64,
                          calls: seq<Call>, c: Call)
    ensures var start := Initial(governance, timelock, applicant, reviewers, decidedAt);
            var (t, r) := Step(Run(start, calls), c);
            && (r.Ok? <==> Welcome(Run(start, calls), Log(start, calls), c))
            && (r.Ok? ==> r.value == t.status) && (r.Err? ==> t == Run(start, calls))
  {
    var start := Initial(governance, timelock, applicant, reviewers, decidedAt);
    var s, log := Run(start, calls), Log(start, calls);
    RunIsTraced(governance, timelock, applicant, reviewers, decidedAt, calls);
    RunKeeps(start, calls);
    StepEffect(s, c);
    match c.op {
      case Submit(applicant, evidence) =>
      case Assign(caller, panel) => AssignWelcome(s, log, caller, panel, c.now);
      case Review(m, vote, reviewHash) => ReviewWelcome(s, log, m, vote, reviewHash, c.now);
      case Escalate => EscalateWelcome(s, log, c.now);
      case Decide(caller, overturn, reason) =>
      case Reopen(caller) =>
    }
  }

  lemma AssignWelcome(s: State, log: seq<Call>, caller: nat, panel: seq<nat>, now: u64)
    requires Inv(s) && (s.appealsUsed in s.appeals ==> RoundTraced(s, log))
    ensures DoAssign(s, caller, panel, now).1.Ok? <==> Welcome(s, log, Call(Assign(caller, panel), now))
  {
  }

  lemma ReviewWelcome(s: State, log: seq<Call>, m: nat, vote: Vote, reviewHash: nat, now: u64)
    requires Inv(s) && (s.appealsUsed in s.appeals ==> RoundTraced(s, log) && BallotTraced(s, log, m))
    ensures DoReview(s, m, vote, reviewHash, now).1.Ok? <==> Welcome(s, log, Call(Review(m, vote, reviewHash), now))
  {
    if s.status == UnderReReview {
      assert RoundOk(s, s.appealsUsed);
    }
  }

  lemma EscalateWelcome(s: State, log: seq<Call>, now: u64)
    requires Inv(s) && (s.appealsUsed in s.appeals ==> RoundTraced(s, log))
    ensures DoEscalate(s, now).1.Ok? <==> Welcome(s, log, Call(Escalate, now))
  {
    if s.status == UnderReReview {
      assert RoundOk(s, s.appealsUsed);
    }
  }
}
