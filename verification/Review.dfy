/**
 * Reviewers, their conflicts of interest, and the one eligibility check that
 * every score, approval and quorum count goes through. Of the grants, this
 * part only sees who receives them: `who` maps each grant to its recipient.
 */
module Review {
  import opened Results
  import opened GrantTerms

  const MAX_SCORE: nat := 100

  datatype Role = Reviewer | LeadReviewer

  datatype Info = Info(role: Role, active: bool)

  datatype ConflictKind = Financial | Employment | Personal | Other

  datatype Conflict = Conflict(kind: ConflictKind, evidence: Option<nat>, flagged: bool, late: bool, waived: bool)

  datatype Verdict = Verdict(score: nat, approve: bool, valid: bool)

  datatype Key = Key(grant: nat, reviewer: nat)

  datatype State = State(
    governance: nat,
    reviewers: map<nat, Info>,
    quorum: nat,
    assignments: set<Key>,
    conflicts: map<Key, Conflict>,
    reviews: map<Key, Verdict>)

  datatype Op =
    | Register(caller: nat, reviewer: nat, role: Role)
    | SetActive(caller: nat, reviewer: nat, active: bool)
    | SetQuorum(caller: nat, quorum: nat)
    | Assign(caller: nat, grant: nat, reviewer: nat)
    | Submit(reviewer: nat, grant: nat, score: nat, approve: bool)
    | Declare(reviewer: nat, grant: nat, kind: ConflictKind, evidence: Option<nat>)
    | Flag(caller: nat, grant: nat, reviewer: nat, kind: ConflictKind, evidence: Option<nat>)
    | Waive(caller: nat, grant: nat, reviewer: nat)

  type Outcome = (State, Result<(), GrantsError>)

  // ---------------------------------------------------------------------
  // Eligibility
  // ---------------------------------------------------------------------

  predicate HasConflict(s: State, key: Key) {
    key in s.conflicts && !s.conflicts[key].waived
  }

  function RequireUnconflicted(s: State, who: map<nat, nat>, key: Key): Result<(), GrantsError> {
    if key.reviewer !in s.reviewers then Err(ReviewerNotFound)
    else if !s.reviewers[key.reviewer].active then Err(ReviewerInactive)
    else if key.grant !in who then Err(GrantNotFound)
    else if who[key.grant] == key.reviewer then Err(SelfReview)
    else if HasConflict(s, key) then Err(ReviewerConflicted)
    else Ok(())
  }

  function RequireEligible(s: State, who: map<nat, nat>, key: Key): Result<(), GrantsError> {
    var r := RequireUnconflicted(s, who, key);
    if r.Err? then r
    else if key !in s.assignments then Err(ReviewerNotAssigned)
    else Ok(())
  }

  /** Registered, active, assigned, not the grantee, and no unwaived conflict. */
  predicate Eligible(s: State, who: map<nat, nat>, key: Key) {
    && key.reviewer in s.reviewers && s.reviewers[key.reviewer].active
    && key in s.assignments
    && key.grant in who && who[key.grant] != key.reviewer
    && !HasConflict(s, key)
  }

  /** The ordered checks, whatever the first refusal, as one condition. */
  lemma EligibleExactly(s: State, who: map<nat, nat>, key: Key)
    ensures RequireEligible(s, who, key).Ok? <==> Eligible(s, who, key)
  {
  }

  // ---------------------------------------------------------------------
  // Transitions
  // ---------------------------------------------------------------------

  function Fail(s: State, e: GrantsError): Outcome {
    (s, Err(e))
  }

  function IsValid(s: State, key: Key): bool {
    key in s.reviews && s.reviews[key].valid
  }

  /** Records the conflict, unassigns the reviewer and invalidates the review, if there is one. */
  function Recused(s: State, key: Key, conflict: Conflict): State {
    s.(conflicts := s.conflicts[key := conflict], assignments := s.assignments - {key},
       reviews := if key in s.reviews then s.reviews[key := s.reviews[key].(valid := false)] else s.reviews)
  }

  function Conflicted(s: State, who: map<nat, nat>, key: Key, kind: ConflictKind, evidence: Option<nat>, flagged: bool)
    : Outcome
  {
    if key.reviewer !in s.reviewers then Fail(s, ReviewerNotFound)
    else if key.grant !in who then Fail(s, GrantNotFound)
    else if HasConflict(s, key) then Fail(s, ConflictAlreadyDeclared)
    else (Recused(s, key, Conflict(kind, evidence, flagged, IsValid(s, key), false)), Ok(()))
  }

  function DoAssign(s: State, who: map<nat, nat>, caller: nat, key: Key): Outcome {
    if caller != s.governance then Fail(s, Unauthorized)
    else if key in s.assignments then Fail(s, ReviewerAlreadyAssigned)
    else
      var r := RequireUnconflicted(s, who, key);
      if r.Err? then Fail(s, r.error) else (s.(assignments := s.assignments + {key}), Ok(()))
  }

  function DoSubmit(s: State, who: map<nat, nat>, key: Key, score: nat, approve: bool): Outcome {
    var r := RequireEligible(s, who, key);
    if r.Err? then Fail(s, r.error)
    else if score > MAX_SCORE then Fail(s, InvalidScore)
    else if IsValid(s, key) then Fail(s, ReviewAlreadySubmitted)
    else (s.(reviews := s.reviews[key := Verdict(score, approve, true)]), Ok(()))
  }

  function DoWaive(s: State, caller: nat, key: Key): Outcome {
    if caller != s.governance then Fail(s, Unauthorized)
    else if !HasConflict(s, key) then Fail(s, ConflictNotFound)
    else (s.(conflicts := s.conflicts[key := s.conflicts[key].(waived := true)]), Ok(()))
  }

  function Step(s: State, who: map<nat, nat>, op: Op): Outcome {
    match op
    case Register(caller, reviewer, role) =>
      if caller != s.governance then Fail(s, Unauthorized)
      else if reviewer in s.reviewers then Fail(s, ReviewerAlreadyRegistered)
      else (s.(reviewers := s.reviewers[reviewer := Info(role, true)]), Ok(()))
    case SetActive(caller, reviewer, active) =>
      if caller != s.governance then Fail(s, Unauthorized)
      else if reviewer !in s.reviewers then Fail(s, ReviewerNotFound)
      else (s.(reviewers := s.reviewers[reviewer := s.reviewers[reviewer].(active := active)]), Ok(()))
    case SetQuorum(caller, quorum) =>
      if caller != s.governance then Fail(s, Unauthorized) else (s.(quorum := quorum), Ok(()))
    case Assign(caller, grant, reviewer) => DoAssign(s, who, caller, Key(grant, reviewer))
    case Submit(reviewer, grant, score, approve) => DoSubmit(s, who, Key(grant, reviewer), score, approve)
    case Declare(reviewer, grant, kind, evidence) => Conflicted(s, who, Key(grant, reviewer), kind, evidence, false)
    case Flag(caller, grant, reviewer, kind, evidence) =>
      if caller != s.governance then Fail(s, Unauthorized)
      else Conflicted(s, who, Key(grant, reviewer), kind, evidence, true)
    case Waive(caller, grant, reviewer) => DoWaive(s, caller, Key(grant, reviewer))
  }

  function Initial(governance: nat): State {
    State(governance, map[], 0, {}, map[], map[])
  }

  /** The reviews that count towards a grant's quorum. */
  function Approvals(s: State, who: map<nat, nat>, grant: nat): set<Key> {
    set key | key in s.reviews && key.grant == grant && s.reviews[key].valid && s.reviews[key].approve
              && Eligible(s, who, key)
  }

  predicate QuorumMet(s: State, who: map<nat, nat>, grant: nat) {
    |Approvals(s, who, grant)| >= s.quorum
  }

  // ---------------------------------------------------------------------
  // Invariant
  // ---------------------------------------------------------------------

  /** An assigned reviewer, or one whose review still counts, is registered, not the grantee, and not in conflict. */
  ghost predicate KeyOk(s: State, who: map<nat, nat>, key: Key) {
    && (key in s.assignments ==>
          key.reviewer in s.reviewers && key.grant in who && who[key.grant] != key.reviewer && !HasConflict(s, key))
    && (IsValid(s, key) ==> key in s.assignments)
  }

  ghost predicate Inv(s: State, who: map<nat, nat>) {
    forall key :: KeyOk(s, who, key)
  }

  /** Grants are only added, and never change hands. */
  predicate Grows(who: map<nat, nat>, later: map<nat, nat>) {
    forall g :: g in who ==> g in later && later[g] == who[g]
  }

  lemma GrowsKeeps(s: State, who: map<nat, nat>, later: map<nat, nat>)
    requires Inv(s, who) && Grows(who, later)
    ensures Inv(s, later)
  {
    forall key: Key
      ensures KeyOk(s, later, key)
    {
      assert KeyOk(s, who, key);
    }
  }

  lemma StepKeeps(s: State, who: map<nat, nat>, op: Op)
    requires Inv(s, who)
    ensures Inv(Step(s, who, op).0, who)
  {
    var t := Step(s, who, op).0;
    forall key: Key
      ensures KeyOk(t, who, key)
    {
      assert KeyOk(s, who, key);
    }
  }

  /** The quorum counts exactly the valid approvals of active reviewers: the other checks are implied. */
  lemma ApprovalsAreValid(s: State, who: map<nat, nat>, key: Key)
    requires Inv(s, who)
    ensures key in Approvals(s, who, key.grant) <==>
              && IsValid(s, key) && s.reviews[key].approve
              && key.reviewer in s.reviewers && s.reviewers[key.reviewer].active
  {
    assert KeyOk(s, who, key);
  }

  // ---------------------------------------------------------------------
  // Conflicts over whole runs
  // ---------------------------------------------------------------------

  /** A call, and the grants there are when it is made. */
  datatype Call = Call(op: Op, who: map<nat, nat>)

  function Run(s: State, calls: seq<Call>): State {
    if calls == [] then s
    else
      var n := |calls| - 1;
      Step(Run(s, calls[..n]), calls[n].who, calls[n].op).0
  }

  predicate Waives(op: Op, key: Key, governance: nat) {
    op == Waive(governance, key.grant, key.reviewer)
  }

  lemma StepKeepsConflict(s: State, who: map<nat, nat>, op: Op, key: Key)
    requires HasConflict(s, key) && !Waives(op, key, s.governance)
    ensures var t := Step(s, who, op).0;
            && HasConflict(t, key) && t.governance == s.governance
            && (!IsValid(s, key) ==> !IsValid(t, key))
            && (key !in s.assignments ==> key !in t.assignments)
  {
    EligibleExactly(s, who, key);
  }

  /**
   * Until governance waives it, a conflict stays: through any calls its
   * reviewer is not eligible, cannot be assigned or have a valid review, and
   * counts towards no quorum.
   */
  lemma {:induction false} ConflictExcludes(s: State, calls: seq<Call>, key: Key, who: map<nat, nat>)
    requires HasConflict(s, key) && !IsValid(s, key) && key !in s.assignments
    requires forall i :: 0 <= i < |calls| ==> !Waives(calls[i].op, key, s.governance)
    ensures var t := Run(s, calls);
            && t.governance == s.governance
            && HasConflict(t, key) && !IsValid(t, key) && key !in t.assignments
            && RequireEligible(t, who, key).Err? && key !in Approvals(t, who, key.grant)
  {
    if calls != [] {
      var n := |calls| - 1;
      ConflictExcludes(s, calls[..n], key, who);
      StepKeepsConflict(Run(s, calls[..n]), calls[n].who, calls[n].op, key);
    }
  }

  /** Declaring or flagging a conflict puts the reviewer exactly there, and marks it late if a valid review preceded it. */
  lemma ConflictRecuses(s: State, who: map<nat, nat>, key: Key, kind: ConflictKind, evidence: Option<nat>, flagged: bool)
    requires Conflicted(s, who, key, kind, evidence, flagged).1.Ok?
    ensures var t := Conflicted(s, who, key, kind, evidence, flagged).0;
            && HasConflict(t, key) && !IsValid(t, key) && key !in t.assignments
            && t.conflicts[key].late == IsValid(s, key) && t.conflicts[key].flagged == flagged
            && forall other :: other != key ==>
                 (HasConflict(t, other) <==> HasConflict(s, other)) && (IsValid(t, other) <==> IsValid(s, other))
                 && (other in t.assignments <==> other in s.assignments)
  {
  }

  /** The grants seen by later calls are those of earlier ones, and perhaps more. */
  predicate Growing(calls: seq<Call>, who: map<nat, nat>) {
    && (forall i :: 0 <= i < |calls| ==> Grows(calls[i].who, who))
    && (forall i, j :: 0 <= i < j < |calls| ==> Grows(calls[i].who, calls[j].who))
  }

  lemma {:induction false} RunKeeps(governance: nat, calls: seq<Call>, who: map<nat, nat>)
    requires Growing(calls, who)
    ensures Inv(Run(Initial(governance), calls), who)
  {
    if calls != [] {
      var n := |calls| - 1;
      var s := Run(Initial(governance), calls[..n]);
      RunKeeps(governance, calls[..n], calls[n].who);
      StepKeeps(s, calls[n].who, calls[n].op);
      GrowsKeeps(Step(s, calls[n].who, calls[n].op).0, calls[n].who, who);
    }
  }

  // ---------------------------------------------------------------------
  // The board
  // ---------------------------------------------------------------------

  class Board {
    const governance: nat
    var reviewers: map<nat, Info>
    var quorum: nat
    var assignments: set<Key>
    var conflicts: map<Key, Conflict>
    var reviews: map<Key, Verdict>

    constructor (governance: nat)
      ensures View() == Initial(governance)
    {
      this.governance := governance;
      reviewers, quorum, assignments, conflicts, reviews := map[], 0, {}, map[], map[];
    }

    function View(): State
      reads this
    {
      State(governance, reviewers, quorum, assignments, conflicts, reviews)
    }

    method RegisterReviewer(caller: nat, reviewer: nat, role: Role) returns (r: Result<(), GrantsError>)
      modifies this
      ensures (View(), r) == Step(old(View()), map[], Register(caller, reviewer, role))
    {
      if caller != governance {
        return Err(Unauthorized);
      }
      if reviewer in reviewers {
        return Err(ReviewerAlreadyRegistered);
      }
      reviewers := reviewers[reviewer := Info(role, true)];
      return Ok(());
    }

    method SetReviewerActive(caller: nat, reviewer: nat, active: bool) returns (r: Result<(), GrantsError>)
      modifies this
      ensures (View(), r) == Step(old(View()), map[], SetActive(caller, reviewer, active))
    {
      if caller != governance {
        return Err(Unauthorized);
      }
      if reviewer !in reviewers {
        return Err(ReviewerNotFound);
      }
      reviewers := reviewers[reviewer := reviewers[reviewer].(active := active)];
      return Ok(());
    }

    method SetReviewQuorum(caller: nat, newQuorum: nat) returns (r: Result<(), GrantsError>)
      modifies this
      ensures (View(), r) == Step(old(View()), map[], SetQuorum(caller, newQuorum))
    {
      if caller != governance {
        return Err(Unauthorized);
      }
      quorum := newQuorum;
      return Ok(());
    }

    method AssignReviewer(who: map<nat, nat>, caller: nat, grant: nat, reviewer: nat)
      returns (r: Result<(), GrantsError>)
      modifies this
      ensures (View(), r) == DoAssign(old(View()), who, caller, Key(grant, reviewer))
    {
      if caller != governance {
        return Err(Unauthorized);
      }
      var key := Key(grant, reviewer);
      if key in assignments {
        return Err(ReviewerAlreadyAssigned);
      }
      r := RequireUnconflicted(View(), who, key);
      if r.Err? {
        return;
      }
      assignments := assignments + {key};
    }

    method SubmitReview(who: map<nat, nat>, reviewer: nat, grant: nat, score: nat, approve: bool)
      returns (r: Result<(), GrantsError>)
      modifies this
      ensures (View(), r) == DoSubmit(old(View()), who, Key(grant, reviewer), score, approve)
    {
      var key := Key(grant, reviewer);
      r := RequireEligible(View(), who, key);
      if r.Err? {
        return;
      }
      if score > MAX_SCORE {
        return Err(InvalidScore);
      }
      if key in reviews && reviews[key].valid {
        return Err(ReviewAlreadySubmitted);
      }
      reviews := reviews[key := Verdict(score, approve, true)];
    }

    /** The conflict is put on record first, with whether it comes late; then the reviewer is recused. */
    method RecordConflict(who: map<nat, nat>, key: Key, kind: ConflictKind, evidence: Option<nat>, flagged: bool)
      returns (r: Result<(), GrantsError>)
      modifies this
      ensures (View(), r) == Conflicted(old(View()), who, key, kind, evidence, flagged)
    {
      if key.reviewer !in reviewers {
        return Err(ReviewerNotFound);
      }
      if key.grant !in who {
        return Err(GrantNotFound);
      }
      if key in conflicts && !conflicts[key].waived {
        return Err(ConflictAlreadyDeclared);
      }
      var late := key in reviews && reviews[key].valid;
      conflicts := conflicts[key := Conflict(kind, evidence, flagged, late, false)];
      Recuse(key);
      return Ok(());
    }

    method Recuse(key: Key)
      modifies this`assignments, this`reviews
      ensures assignments == old(assignments) - {key}
      ensures reviews == if key in old(reviews) then old(reviews)[key := old(reviews)[key].(valid := false)]
                         else old(reviews)
    {
      assignments := assignments - {key};
      if key in reviews {
        reviews := reviews[key := reviews[key].(valid := false)];
      }
    }

    method FlagConflict(who: map<nat, nat>, caller: nat, grant: nat, reviewer: nat, kind: ConflictKind,
                        evidence: Option<nat>) returns (r: Result<(), GrantsError>)
      modifies this
      ensures (View(), r) == Step(old(View()), who, Flag(caller, grant, reviewer, kind, evidence))
    {
      if caller != governance {
        return Err(Unauthorized);
      }
      r := RecordConflict(who, Key(grant, reviewer), kind, evidence, true);
    }

    method WaiveConflict(caller: nat, grant: nat, reviewer: nat) returns (r: Result<(), GrantsError>)
      modifies this
      ensures (View(), r) == DoWaive(old(View()), caller, Key(grant, reviewer))
    {
      if caller != governance {
        return Err(Unauthorized);
      }
      var key := Key(grant, reviewer);
      if key !in conflicts || conflicts[key].waived {
        return Err(ConflictNotFound);
      }
      conflicts := conflicts[key := conflicts[key].(waived := true)];
      return Ok(());
    }

    /** Goes through the reviews one by one; the order does not matter. */
    method ApprovalCount(who: map<nat, nat>, grant: nat) returns (count: nat)
      ensures count == |Approvals(View(), who, grant)|
    {
      count := 0;
      var rest := reviews.Keys;
      ghost var counted: set<Key> := {};
      while rest != {}
        invariant rest <= reviews.Keys
        invariant counted == set key | key in Approvals(View(), who, grant) && key !in rest
        invariant count == |counted|
      {
        var key :| key in rest;
        rest := rest - {key};
        if key.grant == grant && reviews[key].valid && reviews[key].approve
           && RequireEligible(View(), who, key).Ok? {
          EligibleExactly(View(), who, key);
          counted := counted + {key};
          count := count + 1;
        } else {
          EligibleExactly(View(), who, key);
        }
      }
      assert counted == Approvals(View(), who, grant);
    }
  }
}
