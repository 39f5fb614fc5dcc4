/** Who is an admin, who is queued and who is active, traced back to the calls that were accepted. */
module OracleHistory {
  import opened Results
  import opened History
  import opened Oracle

  function Joins(r: nat): Entry -> bool {
    (e: Entry) => Activates(e, r) || Removes(e, r)
  }

  function Queueing(r: nat): Entry -> bool {
    (e: Entry) => Queues(e, r) || Activates(e, r) || Removes(e, r)
  }

  function Proposals(): Entry -> bool {
    (e: Entry) => e.ok && (e.call.op.ProposeAdmin? || e.call.op.AcceptAdmin?)
  }

  function Accepts(): Entry -> bool {
    (e: Entry) => e.ok && e.call.op.AcceptAdmin?
  }

  /** Activated, and not removed since. */
  predicate ActiveBy(log: seq<Entry>, r: nat) {
    match Last(log, Joins(r))
    case Some(e) => e.call.op.ActivateRelayer?
    case None => false
  }

  /** When the relayer was last queued, if it was neither activated nor removed since. */
  function QueuedBy(log: seq<Entry>, r: nat): Option<u64> {
    match Last(log, Queueing(r))
    case Some(e) => if e.call.op.AddRelayer? && !ActiveBy(log, r) then Some(e.call.now) else None
    case None => None
  }

  function AdminBy(log: seq<Entry>, first: nat): nat {
    match Last(log, Accepts())
    case Some(e) => if e.call.op.AcceptAdmin? then e.call.op.caller else first
    case None => first
  }

  function ProposedBy(log: seq<Entry>): Option<nat> {
    match Last(log, Proposals())
    case Some(e) => if e.call.op.ProposeAdmin? then Some(e.call.op.admin) else None
    case None => None
  }

  ghost predicate RelayerOk(s: State, log: seq<Entry>, r: nat) {
    && (r in s.relayers <==> ActiveBy(log, r))
    && (r in s.pending <==> QueuedBy(log, r).Some?)
    && (r in s.pending ==> QueuedBy(log, r) == Some(s.pending[r]))
  }

  ghost predicate HistoryOk(s: State, log: seq<Entry>, first: nat) {
    && s.admin == AdminBy(log, first) && s.pendingAdmin == ProposedBy(log)
    && forall r :: RelayerOk(s, log, r)
  }

  /** What a call does to one relayer's place, and to the administration. */
  lemma PlaceStep(s: State, call: Call, r: nat)
    requires Inv(s)
    ensures var (t, q) := Step(s, call);
            var e := Entry(call, q.Ok?);
            && (r in t.relayers <==> if Joins(r)(e) then Activates(e, r) else r in s.relayers)
            && (Activates(e, r) ==> r in s.pending && r !in s.relayers)
            && (if Queues(e, r) && r !in s.relayers then r in t.pending && t.pending[r] == call.now
                else if Joins(r)(e) then r !in t.pending
                else (r in t.pending <==> r in s.pending) && (r in s.pending ==> t.pending[r] == s.pending[r]))
  {
    match call.op {
      case RemoveRelayer(_, relayer) => WithoutMeaning(s.relayers, relayer);
      case _ =>
    }
  }

  lemma AdminStep(s: State, call: Call)
    ensures var (t, q) := Step(s, call);
            && t.admin == (if q.Ok? && call.op.AcceptAdmin? then call.op.caller else s.admin)
            && t.pendingAdmin == (if q.Ok? && call.op.ProposeAdmin? then Some(call.op.admin)
                                  else if q.Ok? && call.op.AcceptAdmin? then None
                                  else s.pendingAdmin)
  {
  }

  lemma StepTraced(s: State, log: seq<Entry>, call: Call, first: nat)
    requires Inv(s) && HistoryOk(s, log, first)
    ensures HistoryOk(Step(s, call).0, log + [Entry(call, Step(s, call).1.Ok?)], first)
  {
    var e := Entry(call, Step(s, call).1.Ok?);
    AdminStep(s, call);
    LastSnoc(log, e, Accepts());
    LastSnoc(log, e, Proposals());
    forall r ensures RelayerOk(Step(s, call).0, log + [e], r) {
      PlaceTraced(s, log, call, r);
    }
  }

  lemma PlaceTraced(s: State, log: seq<Entry>, call: Call, r: nat)
    requires Inv(s) && RelayerOk(s, log, r)
    ensures RelayerOk(Step(s, call).0, log + [Entry(call, Step(s, call).1.Ok?)], r)
  {
    var e := Entry(call, Step(s, call).1.Ok?);
    PlaceStep(s, call, r);
    LastSnoc(log, e, Joins(r));
    LastSnoc(log, e, Queueing(r));
  }

  /**
   * On every run, a relayer is active if and only if it was activated and not
   * removed since; it is queued since the last queueing that no activation or
   * removal followed; and the admin is the last one to accept a proposal.
   */
  lemma {:induction false} RunIsTraced(admin: nat, calls: seq<Call>)
    ensures var (s, log) := Run(Initial(admin), calls); HistoryOk(s, log, admin)
  {
    if calls != [] {
      var n := |calls| - 1;
      var (s, log) := Run(Initial(admin), calls[..n]);
      RunIsTraced(admin, calls[..n]);
      RunKeeps(admin, calls[..n]);
      StepTraced(s, log, calls[n], admin);
    }
  }

  /** What the calls made so far allow. */
  ghost predicate Welcome(log: seq<Entry>, first: nat, call: Call) {
    match call.op
    case AddRelayer(caller, _) => caller == AdminBy(log, first)
    case ActivateRelayer(r) =>
      QueuedBy(log, r).Some? && call.now >= SaturatingAddU64(QueuedBy(log, r).value, MIN_ADDITION_NOTICE_PERIOD_SECS)
    case RemoveRelayer(caller, _) => caller == AdminBy(log, first)
    case UpdateReputation(caller, r, delta) =>
      caller == AdminBy(log, first) && FitsI128(Score(DeltasSinceActivation(log, r)) + delta)
    case ProposeAdmin(caller, _) => caller == AdminBy(log, first)
    case AcceptAdmin(caller) => ProposedBy(log) == Some(caller)
    case Submit(r, feed, _, timestamp, _) =>
      && ActiveBy(log, r) && timestamp <= call.now <= timestamp + MAX_STALENESS_SECS
      && (LastFrom(log, r, feed).Some? ==>
            SaturatingSubU64(call.now, LastFrom(log, r, feed).value) >= MIN_SUBMISSION_INTERVAL_SECS)
      && (LastOn(log, feed).Some? ==> timestamp >= LastOn(log, feed).value.timestamp)
  }

  /** After any run, the accepted calls before it decide whether a call is accepted. */
  lemma AcceptedByHistory(admin: nat, calls: seq<Call>, call: Call)
    ensures var (s, log) := Run(Initial(admin), calls); Step(s, call).1.Ok? <==> Welcome(log, admin, call)
  {
    var (s, log) := Run(Initial(admin), calls);
    RunIsTraced(admin, calls);
    match call.op {
      case ActivateRelayer(r) =>
        assert RelayerOk(s, log, r);
      case UpdateReputation(_, r, _) =>
        ReputationSinceActivation(admin, calls, r);
      case Submit(r, feed, _, _, _) =>
        assert RelayerOk(s, log, r);
        FeedNeverGoesBack(admin, calls, feed);
        CooldownTracked(admin, calls, r, feed);
      case _ =>
    }
  }
}
