/**
 * Appeals against a rejected grant application: a filing window, an
 * independent panel that may be replaced, a majority vote, escalation of
 * stalled cases, and binding decisions by the timelock. One case is one
 * application.
 */
module Appeals {
  import opened Results

  const APPEAL_WINDOW_SECS: u64 := 14 * 24 * 60 * 60
  const REREVIEW_TIMEOUT_SECS: u64 := 21 * 24 * 60 * 60
  const MAX_PANEL: nat := 7
  const U32_MAX: nat := 0xffff_ffff

  datatype Status = Rejected | AppealSubmitted | UnderReReview | Escalated | Upheld | Overturned

  datatype Vote = VoteUphold | VoteOverturn | VoteEscalate

  datatype Verdict = Open | FoundUpheld | FoundOverturned | FoundEscalated

  datatype Appeal = Appeal(
    evidence: nat,
    submittedAt: u64,
    panel: seq<nat>,
    version: nat,
    assignedAt: u64,
    uphold: nat,
    overturn: nat,
    escalate: nat,
    outcome: Verdict,
    resolvedAt: u64,
    finalized: bool,
    reason: nat)

  datatype VoteKey = VoteKey(round: nat, version: nat, member: nat)

  datatype VoteRecord = VoteRecord(vote: Vote, reviewHash: nat, at: u64)

  datatype AppealError =
    | NotAuthorized
    | InvalidState
    | AppealLimitReached
    | AppealWindowClosed
    | InvalidPanel
    | IneligibleReviewer
    | NotAssigned
    | AlreadyVoted
    | NotStalled
    | Trapped

  datatype State = State(
    governance: nat,
    timelock: nat,
    applicant: nat,
    reviewers: seq<nat>,
    status: Status,
    decidedAt: u64,
    appealsUsed: nat,
    appealsAllowed: nat,
    finalized: bool,
    appeals: map<nat, Appeal>,
    votes: map<VoteKey, VoteRecord>)

  datatype Op =
    | Submit(applicant: nat, evidence: nat)
    | Assign(caller: nat, panel: seq<nat>)
    | Review(member: nat, vote: Vote, reviewHash: nat)
    | Escalate
    | Decide(caller: nat, overturn: bool, reason: nat)
    | Reopen(caller: nat)

  datatype Call = Call(op: Op, now: u64)

  type Outcome = (State, Result<Status, AppealError>)

  // ---------------------------------------------------------------------
  // Transitions
  // ---------------------------------------------------------------------

  function Fail(s: State, e: AppealError): Outcome {
    (s, Err(e))
  }

  predicate NoDuplicates(panel: seq<nat>) {
    forall i, j :: 0 <= i < j < |panel| ==> panel[i] != panel[j]
  }

  predicate ValidPanel(panel: seq<nat>) {
    1 <= |panel| <= MAX_PANEL && NoDuplicates(panel)
  }

  /** Neither the applicant nor an original reviewer. */
  predicate Independent(s: State, panel: seq<nat>) {
    forall i :: 0 <= i < |panel| ==> panel[i] != s.applicant && panel[i] !in s.reviewers
  }

  function DoSubmit(s: State, applicant: nat, evidence: nat, now: u64): Outcome {
    if s.applicant != applicant then Fail(s, NotAuthorized)
    else if s.status != Rejected then Fail(s, InvalidState)
    else if s.appealsUsed >= s.appealsAllowed then Fail(s, AppealLimitReached)
    else if now > SaturatingAddU64(s.decidedAt, APPEAL_WINDOW_SECS) then Fail(s, AppealWindowClosed)
    else
      var appeal := Appeal(evidence, now, [], 0, 0, 0, 0, 0, Open, 0, false, 0);
      (s.(appealsUsed := s.appealsUsed + 1, status := AppealSubmitted,
          appeals := s.appeals[s.appealsUsed + 1 := appeal]), Ok(AppealSubmitted))
  }

  function DoAssign(s: State, caller: nat, panel: seq<nat>, now: u64): Outcome {
    if caller != s.governance then Fail(s, NotAuthorized)
    else if s.status != AppealSubmitted && s.status != UnderReReview then Fail(s, InvalidState)
    else if !ValidPanel(panel) then Fail(s, InvalidPanel)
    else if !Independent(s, panel) then Fail(s, IneligibleReviewer)
    else if s.appealsUsed !in s.appeals then Fail(s, InvalidState)
    else
      var a := s.appeals[s.appealsUsed];
      if a.version == U32_MAX then Fail(s, Trapped)
      else
        var b := a.(panel := panel, version := a.version + 1, assignedAt := now,
                    uphold := 0, overturn := 0, escalate := 0);
        (s.(status := UnderReReview, appeals := s.appeals[s.appealsUsed := b]), Ok(UnderReReview))
  }

  function Counted(a: Appeal, vote: Vote): Appeal {
    match vote
    case VoteUphold => a.(uphold := a.uphold + 1)
    case VoteOverturn => a.(overturn := a.overturn + 1)
    case VoteEscalate => a.(escalate := a.escalate + 1)
  }

  /** The outcome once every one of `n` members has voted. */
  function Outcome3(uphold: nat, overturn: nat, n: nat): (Verdict, Status) {
    if overturn * 2 > n then (FoundOverturned, Overturned)
    else if uphold * 2 > n then (FoundUpheld, Upheld)
    else (FoundEscalated, Escalated)
  }

  function DoReview(s: State, member: nat, vote: Vote, reviewHash: nat, now: u64): Outcome {
    if s.status != UnderReReview then Fail(s, InvalidState)
    else if s.appealsUsed !in s.appeals then Fail(s, InvalidState)
    else
      var a := s.appeals[s.appealsUsed];
      var key := VoteKey(s.appealsUsed, a.version, member);
      if member !in a.panel then Fail(s, NotAssigned)
      else if key in s.votes then Fail(s, AlreadyVoted)
      else
        var b := Counted(a, vote);
        var votes := s.votes[key := VoteRecord(vote, reviewHash, now)];
        if b.uphold + b.overturn + b.escalate == |a.panel| then
          var (verdict, status) := Outcome3(b.uphold, b.overturn, |a.panel|);
          (s.(votes := votes, status := status,
              appeals := s.appeals[s.appealsUsed := b.(outcome := verdict, resolvedAt := now)]), Ok(status))
        else
          (s.(votes := votes, appeals := s.appeals[s.appealsUsed := b]), Ok(s.status))
  }

  function DoEscalate(s: State, now: u64): Outcome {
    if s.appealsUsed !in s.appeals then Fail(s, InvalidState)
    else if s.status != AppealSubmitted && s.status != UnderReReview then Fail(s, InvalidState)
    else
      var a := s.appeals[s.appealsUsed];
      var since := if s.status == AppealSubmitted then a.submittedAt else a.assignedAt;
      if now <= SaturatingAddU64(since, REREVIEW_TIMEOUT_SECS) then Fail(s, NotStalled)
      else
        (s.(status := Escalated,
            appeals := s.appeals[s.appealsUsed := a.(outcome := FoundEscalated, resolvedAt := now)]), Ok(Escalated))
  }

  function DoDecide(s: State, caller: nat, overturn: bool, reason: nat, now: u64): Outcome {
    if caller != s.timelock then Fail(s, NotAuthorized)
    else if s.status != Escalated && s.status != Upheld && s.status != Overturned then Fail(s, InvalidState)
    else if s.appealsUsed !in s.appeals then Fail(s, InvalidState)
    else
      var status := if overturn then Overturned else Upheld;
      var b := s.appeals[s.appealsUsed].(outcome := if overturn then FoundOverturned else FoundUpheld,
                                         resolvedAt := now, finalized := true, reason := reason);
      (s.(status := status, finalized := true, appeals := s.appeals[s.appealsUsed := b]), Ok(status))
  }

  function DoReopen(s: State, caller: nat, now: u64): Outcome {
    if caller != s.timelock then Fail(s, NotAuthorized)
    else if s.status != Upheld then Fail(s, InvalidState)
    else if s.appealsAllowed >= U32_MAX then Fail(s, Trapped)
    else
      (s.(appealsAllowed := s.appealsAllowed + 1, status := Rejected, decidedAt := now, finalized := false),
       Ok(Rejected))
  }

  function Step(s: State, call: Call): Outcome {
    match call.op
    case Submit(applicant, evidence) => DoSubmit(s, applicant, evidence, call.now)
    case Assign(caller, panel) => DoAssign(s, caller, panel, call.now)
    case Review(member, vote, reviewHash) => DoReview(s, member, vote, reviewHash, call.now)
    case Escalate => DoEscalate(s, call.now)
    case Decide(caller, overturn, reason) => DoDecide(s, caller, overturn, reason, call.now)
    case Reopen(caller) => DoReopen(s, caller, call.now)
  }

  function Run(s: State, calls: seq<Call>): State {
    if calls == [] then s
    else Step(Run(s, calls[..|calls| - 1]), calls[|calls| - 1]).0
  }

  /** An application that was just rejected and has never been appealed. */
  function Initial(governance: nat, timelock: nat, applicant: nat, reviewers: seq<nat>, decidedAt: u64): State {
    State(governance, timelock, applicant, reviewers, Rejected, decidedAt, 0, 1, false, map[], map[])
  }

  // ---------------------------------------------------------------------
  // Tallies against the stored votes
  // ---------------------------------------------------------------------

  /** How many of the panel have a stored vote of this kind, for one round and panel version. */
  function Tally(votes: map<VoteKey, VoteRecord>, round: nat, version: nat, panel: seq<nat>, vote: Vote): nat {
    if panel == [] then 0
    else
      var n := |panel| - 1;
      var key := VoteKey(round, version, panel[n]);
      Tally(votes, round, version, panel[..n], vote) + if key in votes && votes[key].vote == vote then 1 else 0
  }

  /** A vote of someone else, or for another round or version, counts for nothing here. */
  lemma {:induction false} TallyOther(votes: map<VoteKey, VoteRecord>, key: VoteKey, record: VoteRecord, round: nat,
                                     version: nat, panel: seq<nat>, vote: Vote)
    requires key.round != round || key.version != version || key.member !in panel
    ensures Tally(votes[key := record], round, version, panel, vote) == Tally(votes, round, version, panel, vote)
  {
    if panel != [] {
      TallyOther(votes, key, record, round, version, panel[..|panel| - 1], vote);
    }
  }

  lemma {:induction false} TallyAdd(votes: map<VoteKey, VoteRecord>, key: VoteKey, record: VoteRecord,
                                   panel: seq<nat>, vote: Vote)
    requires NoDuplicates(panel) && key.member in panel && key !in votes
    ensures Tally(votes[key := record], key.round, key.version, panel, vote)
         == Tally(votes, key.round, key.version, panel, vote) + if record.vote == vote then 1 else 0
  {
    var n := |panel| - 1;
    if panel[n] == key.member {
      TallyOther(votes, key, record, key.round, key.version, panel[..n], vote);
    } else {
      TallyAdd(votes, key, record, panel[..n], vote);
    }
  }

  /** Who has voted, whatever they voted. */
  predicate Voted(votes: map<VoteKey, VoteRecord>, round: nat, version: nat, member: nat) {
    VoteKey(round, version, member) in votes
  }

  lemma {:induction false} TallyBound(votes: map<VoteKey, VoteRecord>, round: nat, version: nat, panel: seq<nat>)
    ensures var sum := Tally(votes, round, version, panel, VoteUphold) + Tally(votes, round, version, panel, VoteOverturn)
                       + Tally(votes, round, version, panel, VoteEscalate);
            && sum <= |panel|
            && (sum == |panel| <==> forall i :: 0 <= i < |panel| ==> Voted(votes, round, version, panel[i]))
            && (sum == 0 <==> forall i :: 0 <= i < |panel| ==> !Voted(votes, round, version, panel[i]))
  {
    if panel != [] {
      var n := |panel| - 1;
      TallyBound(votes, round, version, panel[..n]);
      assert forall i :: 0 <= i < n ==> panel[..n][i] == panel[i];
      assert Voted(votes, round, version, panel[n]) <==> VoteKey(round, version, panel[n]) in votes;
    }
  }

  /** The counters of a round are the stored votes of its current panel. */
  ghost predicate Tallied(votes: map<VoteKey, VoteRecord>, round: nat, a: Appeal) {
    && a.uphold == Tally(votes, round, a.version, a.panel, VoteUphold)
    && a.overturn == Tally(votes, round, a.version, a.panel, VoteOverturn)
    && a.escalate == Tally(votes, round, a.version, a.panel, VoteEscalate)
  }

  /** An independent panel without duplicates, and counters that are its votes. */
  ghost predicate RoundOk(s: State, round: nat)
    requires round in s.appeals
  {
    var a := s.appeals[round];
    && NoDuplicates(a.panel) && Independent(s, a.panel) && |a.panel| <= MAX_PANEL
    && (a.panel == [] <==> a.version == 0)
    && Tallied(s.votes, round, a)
  }

  /** Every stored vote belongs to an assigned panel version of a round, and its caster was independent. */
  ghost predicate VotesOk(s: State) {
    forall key :: key in s.votes ==>
      && key.round in s.appeals && 1 <= key.version <= s.appeals[key.round].version
      && key.member != s.applicant && key.member !in s.reviewers
  }

  predicate PanelDone(a: Appeal) {
    a.uphold + a.overturn + a.escalate == |a.panel|
  }

  /** The appeal was filed in the window of the decision it is against. */
  predicate InWindow(s: State, a: Appeal) {
    a.submittedAt <= SaturatingAddU64(s.decidedAt, APPEAL_WINDOW_SECS)
  }

  /** What the status says about the current round. */
  ghost predicate StatusOk(s: State) {
    && (s.status != Rejected ==> s.appealsUsed in s.appeals && InWindow(s, s.appeals[s.appealsUsed]))
    && match s.status
       case Rejected => !s.finalized
       case AppealSubmitted => !s.finalized && Unfinished(s.appeals[s.appealsUsed]) && s.appeals[s.appealsUsed].panel == []
       case UnderReReview => !s.finalized && Unfinished(s.appeals[s.appealsUsed]) && s.appeals[s.appealsUsed].panel != []
       case Escalated => !s.finalized && !s.appeals[s.appealsUsed].finalized && Undecided(s.appeals[s.appealsUsed])
       case Upheld => Settled(s.appeals[s.appealsUsed], s.finalized, s.appeals[s.appealsUsed].uphold)
       case Overturned => Settled(s.appeals[s.appealsUsed], s.finalized, s.appeals[s.appealsUsed].overturn)
  }

  /** A panel that all voted without a strict majority, or a case that waited too long. */
  predicate Undecided(a: Appeal) {
    || (PanelDone(a) && a.panel != [] && a.overturn * 2 <= |a.panel| && a.uphold * 2 <= |a.panel|)
    || a.resolvedAt > (if a.panel == [] then a.submittedAt else a.assignedAt) + REREVIEW_TIMEOUT_SECS
  }

  /** The verdict stored with the round under way is the one its status shows; every round before it was upheld. */
  ghost predicate VerdictsOk(s: State) {
    && (forall q :: q in s.appeals && (q < s.appealsUsed || s.status == Rejected) ==> s.appeals[q].outcome == FoundUpheld)
    && (s.status != Rejected && s.appealsUsed in s.appeals ==>
          s.appeals[s.appealsUsed].outcome ==
            match s.status
            case Escalated => FoundEscalated
            case Upheld => FoundUpheld
            case Overturned => FoundOverturned
            case _ => Open)
  }

  /** No binding decision, and votes still to come. */
  predicate Unfinished(a: Appeal) {
    !a.finalized && (a.panel != [] ==> !PanelDone(a))
  }

  /** Decided by the timelock, or else by a strict majority of a panel that all voted. */
  predicate Settled(a: Appeal, finalized: bool, inFavour: nat) {
    a.finalized == finalized && (finalized || (PanelDone(a) && inFavour * 2 > |a.panel| > 0))
  }

  ghost predicate Inv(s: State) {
    && s.appealsUsed <= s.appealsAllowed
    && (forall round :: round in s.appeals <==> 1 <= round <= s.appealsUsed)
    && (forall round :: round in s.appeals ==> RoundOk(s, round))
    && VotesOk(s) && StatusOk(s) && VerdictsOk(s)
  }

  // ---------------------------------------------------------------------
  // Preservation
  // ---------------------------------------------------------------------

  /** Rewriting one round, with the same votes, leaves the other rounds in order. */
  lemma PutRound(s: State, t: State, round: nat)
    requires forall r :: r in s.appeals ==> RoundOk(s, r)
    requires round in t.appeals && t.appeals == s.appeals[round := t.appeals[round]]
    requires t.votes == s.votes && t.applicant == s.applicant && t.reviewers == s.reviewers
    requires RoundOk(t, round)
    ensures forall r :: r in t.appeals ==> RoundOk(t, r)
  {
    forall r | r in t.appeals
      ensures RoundOk(t, r)
    {
      assert r in s.appeals ==> RoundOk(s, r);
    }
  }

  lemma SubmitKeeps(s: State, applicant: nat, evidence: nat, now: u64)
    requires Inv(s)
    ensures Inv(DoSubmit(s, applicant, evidence, now).0)
  {
    var (t, r) := DoSubmit(s, applicant, evidence, now);
    if r.Ok? {
      PutRound(s, t, t.appealsUsed);
    }
  }

  lemma AssignKeeps(s: State, caller: nat, panel: seq<nat>, now: u64)
    requires Inv(s)
    ensures Inv(DoAssign(s, caller, panel, now).0)
  {
    var (t, r) := DoAssign(s, caller, panel, now);
    if r.Ok? {
      FreshPanel(s, panel);
      PutRound(s, t, t.appealsUsed);
    }
  }

  /** Nobody has voted yet under the next panel version. */
  lemma FreshPanel(s: State, panel: seq<nat>)
    requires VotesOk(s) && s.appealsUsed in s.appeals
    ensures var v := s.appeals[s.appealsUsed].version + 1;
            && Tally(s.votes, s.appealsUsed, v, panel, VoteUphold) == 0
            && Tally(s.votes, s.appealsUsed, v, panel, VoteOverturn) == 0
            && Tally(s.votes, s.appealsUsed, v, panel, VoteEscalate) == 0
  {
    TallyBound(s.votes, s.appealsUsed, s.appeals[s.appealsUsed].version + 1, panel);
  }

  lemma ReviewKeeps(s: State, member: nat, vote: Vote, reviewHash: nat, now: u64)
    requires Inv(s)
    ensures Inv(DoReview(s, member, vote, reviewHash, now).0)
  {
    var (t, r) := DoReview(s, member, vote, reviewHash, now);
    if r.Ok? {
      ReviewShape(s, member, vote, reviewHash, now);
      ReviewRecords(s, t, VoteKey(s.appealsUsed, s.appeals[s.appealsUsed].version, member),
                    VoteRecord(vote, reviewHash, now));
      ReviewStatus(s, member, vote, reviewHash, now);
    }
  }

  /** Between two states: one more vote, stored and counted for the round it belongs to. */
  ghost predicate VoteCast(s: State, t: State, key: VoteKey, record: VoteRecord) {
    && t == s.(votes := s.votes[key := record], appeals := t.appeals, status := t.status)
    && key.round == s.appealsUsed && key.round in s.appeals && key.round in t.appeals
    && key.version == s.appeals[key.round].version && key.member in s.appeals[key.round].panel && key !in s.votes
    && t.appeals == s.appeals[key.round := t.appeals[key.round]]
    && t.appeals[key.round] == Counted(s.appeals[key.round], record.vote).(
                                 outcome := t.appeals[key.round].outcome, resolvedAt := t.appeals[key.round].resolvedAt)
  }

  lemma ReviewShape(s: State, member: nat, vote: Vote, reviewHash: nat, now: u64)
    requires DoReview(s, member, vote, reviewHash, now).1.Ok?
    ensures s.appealsUsed in s.appeals
    ensures VoteCast(s, DoReview(s, member, vote, reviewHash, now).0,
                     VoteKey(s.appealsUsed, s.appeals[s.appealsUsed].version, member), VoteRecord(vote, reviewHash, now))
  {
  }

  lemma ReviewRecords(s: State, t: State, key: VoteKey, record: VoteRecord)
    requires VoteCast(s, t, key, record)
    requires VotesOk(s) && forall q :: q in s.appeals ==> RoundOk(s, q)
    ensures VotesOk(t) && forall q :: q in t.appeals ==> RoundOk(t, q)
  {
    ReviewRounds(s, t, key, record);
    ReviewVotes(s, t, key, record);
  }

  lemma ReviewVotes(s: State, t: State, key: VoteKey, record: VoteRecord)
    requires VotesOk(s) && key.round in s.appeals && RoundOk(s, key.round)
    requires key.version == s.appeals[key.round].version && key.member in s.appeals[key.round].panel
    requires t.votes == s.votes[key := record] && t.applicant == s.applicant && t.reviewers == s.reviewers
    requires forall q :: q in s.appeals ==> q in t.appeals && t.appeals[q].version == s.appeals[q].version
    ensures VotesOk(t)
  {
    var a := s.appeals[key.round];
    var i :| 0 <= i < |a.panel| && a.panel[i] == key.member;
    assert key.member != s.applicant && key.member !in s.reviewers;
  }

  lemma ReviewStatus(s: State, member: nat, vote: Vote, reviewHash: nat, now: u64)
    requires StatusOk(s) && VerdictsOk(s)
    ensures var t := DoReview(s, member, vote, reviewHash, now).0; StatusOk(t) && VerdictsOk(t)
  {
  }

  lemma ReviewRounds(s: State, t: State, key: VoteKey, record: VoteRecord)
    requires forall q :: q in s.appeals ==> RoundOk(s, q)
    requires key.round in s.appeals && key.version == s.appeals[key.round].version
    requires key.member in s.appeals[key.round].panel && key !in s.votes
    requires t.votes == s.votes[key := record] && t.applicant == s.applicant && t.reviewers == s.reviewers
    requires key.round in t.appeals && t.appeals == s.appeals[key.round := t.appeals[key.round]]
    requires t.appeals[key.round] == Counted(s.appeals[key.round], record.vote).(
               outcome := t.appeals[key.round].outcome, resolvedAt := t.appeals[key.round].resolvedAt)
    ensures forall q :: q in t.appeals ==> RoundOk(t, q)
  {
    forall q | q in t.appeals
      ensures RoundOk(t, q)
    {
      assert RoundOk(s, q);
      VoteTallied(s.votes, q, s.appeals[q], key, record);
    }
  }

  /** One more vote is counted by the round it belongs to and by no other. */
  lemma VoteTallied(votes: map<VoteKey, VoteRecord>, round: nat, a: Appeal, key: VoteKey, record: VoteRecord)
    requires Tallied(votes, round, a) && NoDuplicates(a.panel) && key !in votes
    ensures if key.round == round && key.version == a.version && key.member in a.panel
            then Tallied(votes[key := record], round, Counted(a, record.vote))
            else Tallied(votes[key := record], round, a)
  {
    forall vote: Vote
      ensures Tally(votes[key := record], round, a.version, a.panel, vote)
           == Tally(votes, round, a.version, a.panel, vote)
              + if key.round == round && key.version == a.version && key.member in a.panel && record.vote == vote
                then 1 else 0
    {
      if key.round == round && key.version == a.version && key.member in a.panel {
        TallyAdd(votes, key, record, a.panel, vote);
      } else {
        TallyOther(votes, key, record, round, a.version, a.panel, vote);
      }
    }
  }

  lemma DecideKeeps(s: State, call: Call)
    requires Inv(s) && (call.op.Escalate? || call.op.Decide?)
    ensures Inv(Step(s, call).0)
  {
    var (t, r) := Step(s, call);
    if r.Ok? {
      assert RoundOk(s, s.appealsUsed);
      PutRound(s, t, s.appealsUsed);
    }
  }

  lemma ReopenKeeps(s: State, caller: nat, now: u64)
    requires Inv(s)
    ensures Inv(DoReopen(s, caller, now).0)
  {
    var t := DoReopen(s, caller, now).0;
    assert forall q :: q in s.appeals ==> RoundOk(s, q) && RoundOk(t, q);
  }

  lemma StepKeeps(s: State, call: Call)
    requires Inv(s)
    ensures Inv(Step(s, call).0)
  {
    match call.op {
      case Submit(applicant, evidence) => SubmitKeeps(s, applicant, evidence, call.now);
      case Assign(caller, panel) => AssignKeeps(s, caller, panel, call.now);
      case Review(member, vote, reviewHash) => ReviewKeeps(s, member, vote, reviewHash, call.now);
      case Reopen(caller) => ReopenKeeps(s, caller, call.now);
      case _ => DecideKeeps(s, call);
    }
  }

  lemma {:induction false} RunKeeps(s: State, calls: seq<Call>)
    requires Inv(s)
    ensures Inv(Run(s, calls))
  {
    if calls != [] {
      RunKeeps(s, calls[..|calls| - 1]);
      StepKeeps(Run(s, calls[..|calls| - 1]), calls[|calls| - 1]);
    }
  }

  // ---------------------------------------------------------------------
  // What the protocol promises
  // ---------------------------------------------------------------------

  /**
   * Every case, after any calls: the appeal under way was filed in time, and
   * an outcome that the timelock did not decide is the strict majority of the
   * votes stored for the current panel, all of which are in; no other outcome
   * has one. An escalated case is a full vote without a majority, or one that
   * waited out the timeout. The verdict on record is the one the status shows.
   */
  lemma OutcomeIsMajority(governance: nat, timelock: nat, applicant: nat, reviewers: seq<nat>, decidedAt: u64,
                          calls: seq<Call>)
    ensures var s := Run(Initial(governance, timelock, applicant, reviewers, decidedAt), calls);
            && Inv(s)
            && (s.status != Rejected ==> InWindow(s, s.appeals[s.appealsUsed]))
            && (!s.finalized && (s.status == Overturned || s.status == Upheld) ==>
                  var a := s.appeals[s.appealsUsed];
                  var overturn := Tally(s.votes, s.appealsUsed, a.version, a.panel, VoteOverturn);
                  var uphold := Tally(s.votes, s.appealsUsed, a.version, a.panel, VoteUphold);
                  && (forall i :: 0 <= i < |a.panel| ==> Voted(s.votes, s.appealsUsed, a.version, a.panel[i]))
                  && (s.status == Overturned <==> overturn * 2 > |a.panel|)
                  && (s.status == Upheld <==> uphold * 2 > |a.panel|))
            && (s.status == Escalated ==>
                  var a := s.appeals[s.appealsUsed];
                  var overturn := Tally(s.votes, s.appealsUsed, a.version, a.panel, VoteOverturn);
                  var uphold := Tally(s.votes, s.appealsUsed, a.version, a.panel, VoteUphold);
                  || (a.panel != []
                      && (forall i :: 0 <= i < |a.panel| ==> Voted(s.votes, s.appealsUsed, a.version, a.panel[i]))
                      && overturn * 2 <= |a.panel| && uphold * 2 <= |a.panel|)
                  || a.resolvedAt > (if a.panel == [] then a.submittedAt else a.assignedAt) + REREVIEW_TIMEOUT_SECS)
            && VerdictsOk(s)
  {
    var start := Initial(governance, timelock, applicant, reviewers, decidedAt);
    RunKeeps(start, calls);
    var s := Run(start, calls);
    if s.status == Overturned || s.status == Upheld || s.status == Escalated {
      var a := s.appeals[s.appealsUsed];
      assert RoundOk(s, s.appealsUsed);
      TallyBound(s.votes, s.appealsUsed, a.version, a.panel);
    }
  }

  function Ballots(calls: seq<Call>, vote: Vote): nat {
    if calls == [] then 0
    else
      var op := calls[|calls| - 1].op;
      Ballots(calls[..|calls| - 1], vote) + if op.Review? && op.vote == vote then 1 else 0
  }

  /** Each call is the one ballot of a different member of the panel. */
  predicate OneBallotEach(panel: seq<nat>, calls: seq<Call>) {
    && (forall i :: 0 <= i < |calls| ==> calls[i].op.Review? && calls[i].op.member in panel)
    && (forall i, j :: 0 <= i < j < |calls| && calls[i].op.Review? && calls[j].op.Review? ==>
          calls[i].op.member != calls[j].op.member)
  }

  /** Where the case stands after some ballots of a panel that started from nothing. */
  ghost predicate AfterBallots(s: State, t: State, calls: seq<Call>)
    requires s.appealsUsed in s.appeals
  {
    var a := s.appeals[s.appealsUsed];
    && t.appealsUsed == s.appealsUsed && s.appealsUsed in t.appeals
    && t.status == (if |calls| < |a.panel| then UnderReReview
                    else Outcome3(Ballots(calls, VoteUphold), Ballots(calls, VoteOverturn), |a.panel|).1)
    && var b := t.appeals[s.appealsUsed];
    && b.panel == a.panel && b.version == a.version
    && b.uphold == Ballots(calls, VoteUphold) && b.overturn == Ballots(calls, VoteOverturn)
    && b.escalate == Ballots(calls, VoteEscalate)
    && b.uphold + b.overturn + b.escalate == |calls|
  }

  /** Of the panel, only those whose ballots were cast have voted. */
  ghost predicate OnlyCast(s: State, t: State, calls: seq<Call>)
    requires s.appealsUsed in s.appeals
  {
    var a := s.appeals[s.appealsUsed];
    forall m :: m in a.panel && Voted(t.votes, s.appealsUsed, a.version, m) ==> Cast(calls, m)
  }

  predicate Cast(calls: seq<Call>, member: nat) {
    exists i :: 0 <= i < |calls| && calls[i].op.Review? && calls[i].op.member == member
  }

  /**
   * A panel that nobody has voted on yet reaches its outcome with the last
   * ballot, whatever the order, and the outcome depends on the counts alone.
   */
  lemma {:induction false} PanelDecides(s: State, calls: seq<Call>)
    requires Inv(s) && s.status == UnderReReview
    requires var a := s.appeals[s.appealsUsed];
             && a.uphold + a.overturn + a.escalate == 0
             && |calls| <= |a.panel| && OneBallotEach(a.panel, calls)
    ensures AfterBallots(s, Run(s, calls), calls) && OnlyCast(s, Run(s, calls), calls)
  {
    if calls == [] {
      var a := s.appeals[s.appealsUsed];
      assert RoundOk(s, s.appealsUsed);
      TallyBound(s.votes, s.appealsUsed, a.version, a.panel);
      forall m | m in a.panel
        ensures !Voted(s.votes, s.appealsUsed, a.version, m)
      {
        var i :| 0 <= i < |a.panel| && a.panel[i] == m;
      }
    } else {
      var n := |calls| - 1;
      PanelDecides(s, calls[..n]);
      BallotStep(s, Run(s, calls[..n]), calls);
    }
  }

  lemma NotCastBefore(panel: seq<nat>, calls: seq<Call>)
    requires calls != [] && OneBallotEach(panel, calls)
    ensures !Cast(calls[..|calls| - 1], calls[|calls| - 1].op.member)
  {
    var n := |calls| - 1;
    assert forall i :: 0 <= i < n ==> calls[..n][i] == calls[i];
  }

  lemma BallotStep(s: State, t: State, calls: seq<Call>)
    requires s.appealsUsed in s.appeals && calls != []
    requires var a := s.appeals[s.appealsUsed]; |calls| <= |a.panel| && OneBallotEach(a.panel, calls)
    requires var n := |calls| - 1; AfterBallots(s, t, calls[..n]) && OnlyCast(s, t, calls[..n])
    ensures var u := Step(t, calls[|calls| - 1]).0; AfterBallots(s, u, calls) && OnlyCast(s, u, calls)
  {
    var n := |calls| - 1;
    var a := s.appeals[s.appealsUsed];
    var op := calls[n].op;
    NotCastBefore(a.panel, calls);
    assert !Voted(t.votes, s.appealsUsed, a.version, op.member);
    BallotCounts(s, t, calls);
    var key := VoteKey(s.appealsUsed, a.version, op.member);
    var u := Step(t, calls[n]).0;
    forall m | m in a.panel && Voted(u.votes, s.appealsUsed, a.version, m)
      ensures Cast(calls, m)
    {
      if m == op.member {
        assert calls[n].op.member == m;
      } else {
        assert Voted(t.votes, s.appealsUsed, a.version, m);
        var i :| 0 <= i < n && calls[..n][i].op.Review? && calls[..n][i].op.member == m;
        assert calls[i].op.member == m;
      }
    }
  }

  lemma BallotCounts(s: State, t: State, calls: seq<Call>)
    requires s.appealsUsed in s.appeals && calls != []
    requires var n := |calls| - 1;
             && n < |s.appeals[s.appealsUsed].panel| && AfterBallots(s, t, calls[..n])
             && calls[n].op.Review? && calls[n].op.member in s.appeals[s.appealsUsed].panel
             && !Voted(t.votes, s.appealsUsed, s.appeals[s.appealsUsed].version, calls[n].op.member)
    ensures var op := calls[|calls| - 1].op;
            var u := Step(t, calls[|calls| - 1]).0;
            && AfterBallots(s, u, calls)
            && forall key :: key in u.votes ==>
                 key in t.votes || key == VoteKey(s.appealsUsed, s.appeals[s.appealsUsed].version, op.member)
  {
  }

  /** A new panel starts from nothing: its counters are zero, nobody has voted, and the old votes are still on record. */
  lemma ReplacingDiscards(s: State, caller: nat, panel: seq<nat>, now: u64)
    requires Inv(s) && DoAssign(s, caller, panel, now).1.Ok?
    ensures var t := DoAssign(s, caller, panel, now).0;
            var b := t.appeals[t.appealsUsed];
            && t.status == UnderReReview && b.panel == panel && b.uphold == b.overturn == b.escalate == 0
            && t.votes == s.votes
            && forall m :: !Voted(t.votes, t.appealsUsed, b.version, m)
  {
    var version := s.appeals[s.appealsUsed].version + 1;
    assert forall m :: !Voted(s.votes, s.appealsUsed, version, m);
  }

  /** Votes are only ever added, and a round that another has followed never changes again. */
  lemma {:induction false} AuditTrailKept(s: State, calls: seq<Call>)
    requires Inv(s)
    ensures var t := Run(s, calls);
            && s.appealsUsed <= t.appealsUsed
            && (forall key :: key in s.votes ==> key in t.votes && t.votes[key] == s.votes[key])
            && (forall q :: q in s.appeals && q < s.appealsUsed ==> q in t.appeals && t.appeals[q] == s.appeals[q])
  {
    if calls != [] {
      var n := |calls| - 1;
      AuditTrailKept(s, calls[..n]);
      StepKeepsTrail(Run(s, calls[..n]), calls[n]);
    }
  }

  lemma StepKeepsTrail(s: State, call: Call)
    ensures var t := Step(s, call).0;
            && s.appealsUsed <= t.appealsUsed
            && (forall key :: key in s.votes ==> key in t.votes && t.votes[key] == s.votes[key])
            && (forall q :: q in s.appeals && q < s.appealsUsed ==> q in t.appeals && t.appeals[q] == s.appeals[q])
  {
  }

  /** The calls the timelock made, and got through, to allow another appeal. */
  function Reopenings(s: State, calls: seq<Call>): nat {
    if calls == [] then 0
    else
      var n := |calls| - 1;
      Reopenings(s, calls[..n])
      + if calls[n].op == Reopen(s.timelock) && Step(Run(s, calls[..n]), calls[n]).1.Ok? then 1 else 0
  }

  /** One appeal to begin with, and one more for each reopening by the timelock; no one else can finalize. */
  lemma {:induction false} AppealsAreRationed(governance: nat, timelock: nat, applicant: nat, reviewers: seq<nat>,
                                             decidedAt: u64, calls: seq<Call>)
    ensures var start := Initial(governance, timelock, applicant, reviewers, decidedAt);
            var s := Run(start, calls);
            && s.timelock == timelock
            && s.appealsUsed <= s.appealsAllowed == 1 + Reopenings(start, calls)
            && (s.finalized ==> exists i :: 0 <= i < |calls| && calls[i].op.Decide? && calls[i].op.caller == timelock)
  {
    var start := Initial(governance, timelock, applicant, reviewers, decidedAt);
    RunKeeps(start, calls);
    if calls != [] {
      var n := |calls| - 1;
      AppealsAreRationed(governance, timelock, applicant, reviewers, decidedAt, calls[..n]);
      var t := Run(start, calls[..n]);
      RationStep(t, calls[n]);
      if t.finalized {
        var i :| 0 <= i < n && calls[..n][i].op.Decide? && calls[..n][i].op.caller == timelock;
        assert calls[i].op.caller == timelock;
      }
    }
  }

  lemma RationStep(s: State, call: Call)
    ensures var (t, r) := Step(s, call);
            && t.timelock == s.timelock
            && t.appealsAllowed == s.appealsAllowed + (if call.op == Reopen(s.timelock) && r.Ok? then 1 else 0)
            && (t.finalized ==> s.finalized || (call.op.Decide? && call.op.caller == s.timelock))
  {
  }

  /**
   * Nothing stalls for good: anyone can escalate a waiting case exactly when
   * more than the timeout has passed since it was filed, or since its current
   * panel was assigned; and an escalated case can always be decided.
   */
  lemma StalledCanEscalate(s: State, now: u64)
    requires Inv(s) && (s.status == AppealSubmitted || s.status == UnderReReview)
    ensures var a := s.appeals[s.appealsUsed];
            var since := if s.status == AppealSubmitted then a.submittedAt else a.assignedAt;
            var (t, r) := DoEscalate(s, now);
            && (r.Ok? <==> now > since + REREVIEW_TIMEOUT_SECS)
            && (r.Ok? ==> forall overturn, reason :: DoDecide(t, t.timelock, overturn, reason, now).1.Ok?)
  {
  }

  // ---------------------------------------------------------------------
  // The contract's view of one case
  // ---------------------------------------------------------------------

  class Case {
    const governance: nat
    const timelock: nat
    const applicant: nat
    const reviewers: seq<nat>
    var status: Status
    var decidedAt: u64
    var appealsUsed: nat
    var appealsAllowed: nat
    var finalized: bool
    var appeals: map<nat, Appeal>
    var votes: map<VoteKey, VoteRecord>

    constructor (governance: nat, timelock: nat, applicant: nat, reviewers: seq<nat>, decidedAt: u64)
      ensures View() == Initial(governance, timelock, applicant, reviewers, decidedAt)
    {
      this.governance, this.timelock, this.applicant, this.reviewers := governance, timelock, applicant, reviewers;
      status, this.decidedAt, appealsUsed, appealsAllowed, finalized := Rejected, decidedAt, 0, 1, false;
      appeals, votes := map[], map[];
    }

    function View(): State
      reads this
    {
      State(governance, timelock, applicant, reviewers, status, decidedAt, appealsUsed, appealsAllowed, finalized,
            appeals, votes)
    }

    method SubmitAppeal(caller: nat, evidence: nat, now: u64) returns (r: Result<Status, AppealError>)
      modifies this
      ensures (View(), r) == DoSubmit(old(View()), caller, evidence, now)
    {
      if applicant != caller {
        return Err(NotAuthorized);
      }
      if status != Rejected {
        return Err(InvalidState);
      }
      if appealsUsed >= appealsAllowed {
        return Err(AppealLimitReached);
      }
      if now > SaturatingAddU64(decidedAt, APPEAL_WINDOW_SECS) {
        return Err(AppealWindowClosed);
      }
      appealsUsed := appealsUsed + 1;
      status := AppealSubmitted;
      appeals := appeals[appealsUsed := Appeal(evidence, now, [], 0, 0, 0, 0, 0, Open, 0, false, 0)];
      return Ok(status);
    }

    /** The loop over the proposed panel stops at the first member who is not independent. */
    method AssignPanel(caller: nat, panel: seq<nat>, now: u64) returns (r: Result<Status, AppealError>)
      modifies this
      ensures (View(), r) == DoAssign(old(View()), caller, panel, now)
    {
      if caller != governance {
        return Err(NotAuthorized);
      }
      if status != AppealSubmitted && status != UnderReReview {
        return Err(InvalidState);
      }
      if !ValidPanel(panel) {
        return Err(InvalidPanel);
      }
      for i := 0 to |panel|
        invariant forall k :: 0 <= k < i ==> panel[k] != applicant && panel[k] !in reviewers
      {
        if panel[i] == applicant || panel[i] in reviewers {
          return Err(IneligibleReviewer);
        }
      }
      var round := appealsUsed;
      if round !in appeals {
        return Err(InvalidState);
      }
      var appeal := appeals[round];
      if appeal.version == U32_MAX {
        return Err(Trapped);
      }
      appeal := appeal.(panel := panel, version := appeal.version + 1, assignedAt := now);
      appeal := appeal.(uphold := 0, overturn := 0, escalate := 0);
      appeals := appeals[round := appeal];
      status := UnderReReview;
      return Ok(UnderReReview);
    }

    method SubmitReview(member: nat, vote: Vote, reviewHash: nat, now: u64) returns (r: Result<Status, AppealError>)
      modifies this
      ensures (View(), r) == DoReview(old(View()), member, vote, reviewHash, now)
    {
      if status != UnderReReview {
        return Err(InvalidState);
      }
      var round := appealsUsed;
      if round !in appeals {
        return Err(InvalidState);
      }
      var appeal := appeals[round];
      if member !in appeal.panel {
        return Err(NotAssigned);
      }
      var key := VoteKey(round, appeal.version, member);
      if key in votes {
        return Err(AlreadyVoted);
      }
      votes := votes[key := VoteRecord(vote, reviewHash, now)];
      match vote {
        case VoteUphold => appeal := appeal.(uphold := appeal.uphold + 1);
        case VoteOverturn => appeal := appeal.(overturn := appeal.overturn + 1);
        case VoteEscalate => appeal := appeal.(escalate := appeal.escalate + 1);
      }
      var n := |appeal.panel|;
      if appeal.uphold + appeal.overturn + appeal.escalate == n {
        var outcome := FoundEscalated;
        if appeal.overturn * 2 > n {
          outcome, status := FoundOverturned, Overturned;
        } else if appeal.uphold * 2 > n {
          outcome, status := FoundUpheld, Upheld;
        } else {
          status := Escalated;
        }
        appeal := appeal.(outcome := outcome, resolvedAt := now);
      }
      appeals := appeals[round := appeal];
      return Ok(status);
    }

    method EscalateStalled(now: u64) returns (r: Result<Status, AppealError>)
      modifies this
      ensures (View(), r) == DoEscalate(old(View()), now)
    {
      var round := appealsUsed;
      if round !in appeals {
        return Err(InvalidState);
      }
      var appeal := appeals[round];
      var since := 0;
      match status {
        case AppealSubmitted => since := appeal.submittedAt;
        case UnderReReview => since := appeal.assignedAt;
        case _ => return Err(InvalidState);
      }
      if now <= SaturatingAddU64(since, REREVIEW_TIMEOUT_SECS) {
        return Err(NotStalled);
      }
      appeal := appeal.(outcome := FoundEscalated, resolvedAt := now);
      status := Escalated;
      appeals := appeals[round := appeal];
      return Ok(Escalated);
    }

    method FinalDecision(caller: nat, overturn: bool, reason: nat, now: u64) returns (r: Result<Status, AppealError>)
      modifies this
      ensures (View(), r) == DoDecide(old(View()), caller, overturn, reason, now)
    {
      if caller != timelock {
        return Err(NotAuthorized);
      }
      if status != Escalated && status != Upheld && status != Overturned {
        return Err(InvalidState);
      }
      var round := appealsUsed;
      if round !in appeals {
        return Err(InvalidState);
      }
      var appeal := appeals[round];
      appeal := appeal.(outcome := if overturn then FoundOverturned else FoundUpheld);
      appeal := appeal.(resolvedAt := now, finalized := true, reason := reason);
      status := if overturn then Overturned else Upheld;
      finalized := true;
      appeals := appeals[round := appeal];
      return Ok(status);
    }

    method ReopenAppeal(caller: nat, now: u64) returns (r: Result<Status, AppealError>)
      modifies this
      ensures (View(), r) == DoReopen(old(View()), caller, now)
    {
      if caller != timelock {
        return Err(NotAuthorized);
      }
      if status != Upheld {
        return Err(InvalidState);
      }
      if appealsAllowed >= U32_MAX {
        return Err(Trapped);
      }
      appealsAllowed := appealsAllowed + 1;
      status := Rejected;
      decidedAt := now;
      finalized := false;
      return Ok(Rejected);
    }
  }
}
