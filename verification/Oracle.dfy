/**
 * The price oracle: relayers that become active after a notice period, a
 * submission cooldown, feeds that never go back in time, and bounded
 * reputation. The promises are about whole runs, so they are stated over the
 * log of calls.
 */
module Oracle {
  import opened Results

  const MAX_STALENESS_SECS: u64 := 1_800
  const MIN_ADDITION_NOTICE_PERIOD_SECS: u64 := 48 * 60 * 60
  const MIN_SUBMISSION_INTERVAL_SECS: u64 := 60
  const REPUTATION_INITIAL: i128 := 100
  const REPUTATION_FLOOR: i128 := 1
  const REPUTATION_CEILING: i128 := 1_000

  datatype Reading = Reading(value: i128, timestamp: u64, source: nat)

  datatype Pair = Pair(relayer: nat, feed: nat)

  datatype OracleError =
    | Unauthorized
    | NoPendingAdmin
    | RelayerNotPending
    | NoticePeriodNotElapsed
    | FutureTimestamp
    | StaleReading
    | SubmittedTooSoon
    | StaleSubmission
    | FeedNotFound
    | Trapped

  datatype State = State(
    admin: nat,
    pendingAdmin: Option<nat>,
    relayers: seq<nat>,
    pending: map<nat, u64>,
    readings: map<nat, Reading>,
    lastSubmissionAt: map<Pair, u64>,
    reputation: map<nat, i128>)

  datatype Op =
    | AddRelayer(caller: nat, relayer: nat)
    | ActivateRelayer(relayer: nat)
    | RemoveRelayer(caller: nat, relayer: nat)
    | UpdateReputation(caller: nat, relayer: nat, delta: i128)
    | ProposeAdmin(caller: nat, admin: nat)
    | AcceptAdmin(caller: nat)
    | Submit(relayer: nat, feed: nat, value: i128, timestamp: u64, source: nat)

  datatype Call = Call(op: Op, now: u64)

  type Outcome = (State, Result<(), OracleError>)

  // ---------------------------------------------------------------------
  // Transitions
  // ---------------------------------------------------------------------

  function Fail(s: State, e: OracleError): Outcome {
    (s, Err(e))
  }

  function DoAdd(s: State, caller: nat, relayer: nat, now: u64): Outcome {
    if caller != s.admin then Fail(s, Unauthorized)
    else if relayer in s.relayers then (s, Ok(()))
    else (s.(pending := s.pending[relayer := now]), Ok(()))
  }

  function DoActivate(s: State, relayer: nat, now: u64): Outcome {
    if relayer !in s.pending then Fail(s, RelayerNotPending)
    else if now < SaturatingAddU64(s.pending[relayer], MIN_ADDITION_NOTICE_PERIOD_SECS) then
      Fail(s, NoticePeriodNotElapsed)
    else
      var t := if relayer in s.relayers then s
               else s.(relayers := s.relayers + [relayer],
                       reputation := s.reputation[relayer := REPUTATION_INITIAL]);
      (t.(pending := t.pending - {relayer}), Ok(()))
  }

  function Without(relayers: seq<nat>, relayer: nat): seq<nat> {
    if relayers == [] then []
    else
      var n := |relayers| - 1;
      Without(relayers[..n], relayer) + if relayers[n] != relayer then [relayers[n]] else []
  }

  function DoRemove(s: State, caller: nat, relayer: nat): Outcome {
    if caller != s.admin then Fail(s, Unauthorized)
    else (s.(relayers := Without(s.relayers, relayer), pending := s.pending - {relayer}), Ok(()))
  }

  function Distance(a: int, b: int): nat {
    if a < b then b - a else a - b
  }

  /** The nearest score within bounds. */
  function Clamp(x: int): (r: i128)
    ensures REPUTATION_FLOOR <= r <= REPUTATION_CEILING
    ensures forall y :: REPUTATION_FLOOR <= y <= REPUTATION_CEILING ==> Distance(r, x) <= Distance(y, x)
  {
    if x < REPUTATION_FLOOR then REPUTATION_FLOOR
    else if x > REPUTATION_CEILING then REPUTATION_CEILING
    else x
  }

  function DoUpdateReputation(s: State, caller: nat, relayer: nat, delta: i128): Outcome {
    var current := if relayer in s.reputation then s.reputation[relayer] else REPUTATION_INITIAL;
    if caller != s.admin then Fail(s, Unauthorized)
    else if !FitsI128(current + delta) then Fail(s, Trapped)
    else (s.(reputation := s.reputation[relayer := Clamp(current + delta)]), Ok(()))
  }

  function DoProposeAdmin(s: State, caller: nat, admin: nat): Outcome {
    if caller != s.admin then Fail(s, Unauthorized)
    else (s.(pendingAdmin := Some(admin)), Ok(()))
  }

  function DoAcceptAdmin(s: State, caller: nat): Outcome {
    if s.pendingAdmin.None? then Fail(s, NoPendingAdmin)
    else if s.pendingAdmin.value != caller then Fail(s, Unauthorized)
    else (s.(admin := caller, pendingAdmin := None), Ok(()))
  }

  function DoSubmit(s: State, relayer: nat, feed: nat, value: i128, timestamp: u64, source: nat, now: u64): Outcome {
    var pair := Pair(relayer, feed);
    if relayer !in s.relayers then Fail(s, Unauthorized)
    else if timestamp > now then Fail(s, FutureTimestamp)
    else if now - timestamp > MAX_STALENESS_SECS then Fail(s, StaleReading)
    else if pair in s.lastSubmissionAt
            && SaturatingSubU64(now, s.lastSubmissionAt[pair]) < MIN_SUBMISSION_INTERVAL_SECS then
      Fail(s, SubmittedTooSoon)
    else if feed in s.readings && timestamp < s.readings[feed].timestamp then Fail(s, StaleSubmission)
    else
      (s.(lastSubmissionAt := s.lastSubmissionAt[pair := now],
          readings := s.readings[feed := Reading(value, timestamp, source)]), Ok(()))
  }

  function Step(s: State, call: Call): Outcome {
    match call.op
    case AddRelayer(caller, relayer) => DoAdd(s, caller, relayer, call.now)
    case ActivateRelayer(relayer) => DoActivate(s, relayer, call.now)
    case RemoveRelayer(caller, relayer) => DoRemove(s, caller, relayer)
    case UpdateReputation(caller, relayer, delta) => DoUpdateReputation(s, caller, relayer, delta)
    case ProposeAdmin(caller, admin) => DoProposeAdmin(s, caller, admin)
    case AcceptAdmin(caller) => DoAcceptAdmin(s, caller)
    case Submit(relayer, feed, value, timestamp, source) =>
      DoSubmit(s, relayer, feed, value, timestamp, source, call.now)
  }

  function GetReading(s: State, feed: nat, now: u64): Result<Reading, OracleError> {
    if feed !in s.readings then Err(FeedNotFound)
    else if SaturatingSubU64(now, s.readings[feed].timestamp) > MAX_STALENESS_SECS then Err(StaleReading)
    else Ok(s.readings[feed])
  }

  function Initial(admin: nat): State {
    State(admin, None, [], map[], map[], map[], map[])
  }

  // ---------------------------------------------------------------------
  // Runs and their log
  // ---------------------------------------------------------------------

  datatype Entry = Entry(call: Call, ok: bool)

  function Run(s: State, calls: seq<Call>): (r: (State, seq<Entry>))
    ensures |r.1| == |calls| && forall i :: 0 <= i < |calls| ==> r.1[i].call == calls[i]
  {
    if calls == [] then (s, [])
    else
      var n := |calls| - 1;
      var (t, log) := Run(s, calls[..n]);
      var (u, r) := Step(t, calls[n]);
      (u, log + [Entry(calls[n], r.Ok?)])
  }

  predicate NonDecreasing(calls: seq<Call>) {
    forall i, j :: 0 <= i < j < |calls| ==> calls[i].now <= calls[j].now
  }

  predicate NoDuplicates(relayers: seq<nat>) {
    forall i, j :: 0 <= i < j < |relayers| ==> relayers[i] != relayers[j]
  }

  ghost predicate Inv(s: State) {
    && NoDuplicates(s.relayers)
    && (forall r :: r in s.pending ==> r !in s.relayers)
    && (forall r :: r in s.reputation ==> REPUTATION_FLOOR <= s.reputation[r] <= REPUTATION_CEILING)
    && (forall r :: r in s.relayers ==> r in s.reputation)
  }

  lemma {:induction false} WithoutMeaning(relayers: seq<nat>, relayer: nat)
    ensures forall r :: r in Without(relayers, relayer) <==> r in relayers && r != relayer
    ensures NoDuplicates(relayers) ==> NoDuplicates(Without(relayers, relayer))
    ensures relayer !in relayers ==> Without(relayers, relayer) == relayers
  {
    if relayers != [] {
      var n := |relayers| - 1;
      WithoutMeaning(relayers[..n], relayer);
      assert relayers == relayers[..n] + [relayers[n]];
      assert NoDuplicates(relayers) ==> NoDuplicates(relayers[..n]) && relayers[n] !in relayers[..n];
    }
  }

  lemma StepKeeps(s: State, call: Call)
    requires Inv(s)
    ensures Inv(Step(s, call).0)
  {
    match call.op {
      case RemoveRelayer(caller, relayer) => RemoveKeeps(s, caller, relayer);
      case ActivateRelayer(relayer) => ActivateKeeps(s, relayer, call.now);
      case AddRelayer(caller, relayer) => AddKeeps(s, caller, relayer, call.now);
      case UpdateReputation(caller, relayer, delta) => ReputationKeeps(s, caller, relayer, delta);
      case _ => SameLists(s, call);
    }
  }

  lemma SameLists(s: State, call: Call)
    requires call.op.ProposeAdmin? || call.op.AcceptAdmin? || call.op.Submit?
    ensures var t := Step(s, call).0;
            t.relayers == s.relayers && t.pending == s.pending && t.reputation == s.reputation
  {
  }

  lemma RemoveKeeps(s: State, caller: nat, relayer: nat)
    requires Inv(s)
    ensures Inv(DoRemove(s, caller, relayer).0)
  {
    WithoutMeaning(s.relayers, relayer);
  }

  lemma AddKeeps(s: State, caller: nat, relayer: nat, now: u64)
    requires Inv(s)
    ensures Inv(DoAdd(s, caller, relayer, now).0)
  {
  }

  lemma ReputationKeeps(s: State, caller: nat, relayer: nat, delta: i128)
    requires Inv(s)
    ensures Inv(DoUpdateReputation(s, caller, relayer, delta).0)
  {
  }

  lemma ActivateKeeps(s: State, relayer: nat, now: u64)
    requires Inv(s)
    ensures Inv(DoActivate(s, relayer, now).0)
  {
  }

  /** On every run the active list has no duplicates and every reputation is within its bounds. */
  lemma {:induction false} RunKeeps(admin: nat, calls: seq<Call>)
    ensures Inv(Run(Initial(admin), calls).0)
  {
    if calls != [] {
      var n := |calls| - 1;
      RunKeeps(admin, calls[..n]);
      StepKeeps(Run(Initial(admin), calls[..n]).0, calls[n]);
    }
  }

  // ---------------------------------------------------------------------
  // Notice periods
  // ---------------------------------------------------------------------

  predicate Queues(e: Entry, relayer: nat) {
    e.ok && e.call.op.AddRelayer? && e.call.op.relayer == relayer
  }

  predicate Activates(e: Entry, relayer: nat) {
    e.ok && e.call.op.ActivateRelayer? && e.call.op.relayer == relayer
  }

  predicate Removes(e: Entry, relayer: nat) {
    e.ok && e.call.op.RemoveRelayer? && e.call.op.relayer == relayer
  }

  /** The relayer was queued at entry `i` and has not been removed since. */
  predicate QueuedAt(log: seq<Entry>, relayer: nat, i: nat) {
    i < |log| && Queues(log[i], relayer) && forall k :: i < k < |log| ==> !Removes(log[k], relayer)
  }

  /** It was activated at entry `j`, two days after that queueing. */
  predicate Waited(log: seq<Entry>, relayer: nat, i: nat, j: nat) {
    && QueuedAt(log, relayer, i) && i < j < |log| && Activates(log[j], relayer)
    && log[j].call.now >= SaturatingAddU64(log[i].call.now, MIN_ADDITION_NOTICE_PERIOD_SECS)
  }

  ghost predicate PendingOk(s: State, log: seq<Entry>, relayer: nat) {
    relayer in s.pending ==> exists i: nat :: QueuedAt(log, relayer, i) && log[i].call.now == s.pending[relayer]
  }

  ghost predicate ActiveOk(s: State, log: seq<Entry>, relayer: nat) {
    relayer in s.relayers ==> exists i, j :: Waited(log, relayer, i, j)
  }

  /** An entry that does not remove the relayer takes nothing away from it. */
  lemma NoticeKept(log: seq<Entry>, e: Entry, relayer: nat)
    requires !Removes(e, relayer)
    ensures forall i: nat :: QueuedAt(log, relayer, i) ==> QueuedAt(log + [e], relayer, i)
    ensures forall i: nat, j: nat :: Waited(log, relayer, i, j) ==> Waited(log + [e], relayer, i, j)
  {
  }

  /** What one call can do to a relayer's place on the two lists. */
  lemma ListStep(s: State, call: Call, relayer: nat)
    ensures var (t, r) := Step(s, call);
            var e := Entry(call, r.Ok?);
            && (relayer in t.pending ==>
                  !Removes(e, relayer) && (if relayer in s.pending && t.pending[relayer] == s.pending[relayer] then true
                                           else Queues(e, relayer) && t.pending[relayer] == call.now))
            && (relayer in t.relayers && relayer !in s.relayers ==>
                  && Activates(e, relayer) && relayer in s.pending
                  && call.now >= SaturatingAddU64(s.pending[relayer], MIN_ADDITION_NOTICE_PERIOD_SECS))
            && (relayer in t.relayers ==> !Removes(e, relayer))
  {
    if call.op.RemoveRelayer? {
      WithoutMeaning(s.relayers, call.op.relayer);
    }
  }

  lemma NoticeStep(s: State, log: seq<Entry>, call: Call, relayer: nat)
    requires PendingOk(s, log, relayer) && ActiveOk(s, log, relayer)
    ensures var (t, r) := Step(s, call);
            var after := log + [Entry(call, r.Ok?)];
            PendingOk(t, after, relayer) && ActiveOk(t, after, relayer)
  {
    var (t, r) := Step(s, call);
    var e := Entry(call, r.Ok?);
    ListStep(s, call, relayer);
    NoticeExtends(s, t, log, e, relayer);
  }

  lemma NoticeExtends(s: State, t: State, log: seq<Entry>, e: Entry, relayer: nat)
    requires PendingOk(s, log, relayer) && ActiveOk(s, log, relayer)
    requires relayer in t.pending ==>
               !Removes(e, relayer) && (if relayer in s.pending && t.pending[relayer] == s.pending[relayer] then true
                                        else Queues(e, relayer) && t.pending[relayer] == e.call.now)
    requires relayer in t.relayers && relayer !in s.relayers ==>
               && Activates(e, relayer) && relayer in s.pending
               && e.call.now >= SaturatingAddU64(s.pending[relayer], MIN_ADDITION_NOTICE_PERIOD_SECS)
    requires relayer in t.relayers ==> !Removes(e, relayer)
    ensures PendingOk(t, log + [e], relayer) && ActiveOk(t, log + [e], relayer)
  {
    var after := log + [e];
    if !Removes(e, relayer) {
      NoticeKept(log, e, relayer);
      if relayer in t.pending && Queues(e, relayer) {
        assert QueuedAt(after, relayer, |log|);
      }
      if relayer in t.relayers && relayer !in s.relayers {
        var i: nat :| QueuedAt(log, relayer, i) && log[i].call.now == s.pending[relayer];
        assert Waited(after, relayer, i, |log|);
      }
    }
  }

  /** Every active relayer was queued, waited two days, was activated, and was not removed since it was queued. */
  lemma {:induction false} NoticeServed(admin: nat, calls: seq<Call>, relayer: nat)
    ensures var (s, log) := Run(Initial(admin), calls);
            PendingOk(s, log, relayer) && ActiveOk(s, log, relayer)
  {
    if calls != [] {
      var n := |calls| - 1;
      NoticeServed(admin, calls[..n], relayer);
      var (s, log) := Run(Initial(admin), calls[..n]);
      NoticeStep(s, log, calls[n], relayer);
    }
  }

  // ---------------------------------------------------------------------
  // Submissions against the log
  // ---------------------------------------------------------------------

  predicate AcceptedOn(e: Entry, feed: nat) {
    e.ok && e.call.op.Submit? && e.call.op.feed == feed
  }

  predicate AcceptedFrom(e: Entry, relayer: nat, feed: nat) {
    AcceptedOn(e, feed) && e.call.op.relayer == relayer
  }

  /** What the last accepted submission to a feed stored. */
  function LastOn(log: seq<Entry>, feed: nat): Option<Reading> {
    if log == [] then None
    else
      var e := log[|log| - 1];
      if AcceptedOn(e, feed) then Some(Reading(e.call.op.value, e.call.op.timestamp, e.call.op.source))
      else LastOn(log[..|log| - 1], feed)
  }

  /** When a relayer's last accepted submission to a feed was made. */
  function LastFrom(log: seq<Entry>, relayer: nat, feed: nat): Option<u64> {
    if log == [] then None
    else
      var e := log[|log| - 1];
      if AcceptedFrom(e, relayer, feed) then Some(e.call.now) else LastFrom(log[..|log| - 1], relayer, feed)
  }

  function Stored(s: State, feed: nat): Option<Reading> {
    if feed in s.readings then Some(s.readings[feed]) else None
  }

  function StoredAt(s: State, relayer: nat, feed: nat): Option<u64> {
    if Pair(relayer, feed) in s.lastSubmissionAt then Some(s.lastSubmissionAt[Pair(relayer, feed)]) else None
  }

  /** The stored reading is the last accepted one and the newest one ever accepted. */
  ghost predicate FeedOk(s: State, log: seq<Entry>, feed: nat) {
    && Stored(s, feed) == LastOn(log, feed)
    && forall k :: 0 <= k < |log| && AcceptedOn(log[k], feed) ==>
         Stored(s, feed).Some? && log[k].call.op.timestamp <= Stored(s, feed).value.timestamp
  }

  lemma FeedStep(s: State, log: seq<Entry>, call: Call, feed: nat)
    requires FeedOk(s, log, feed)
    ensures var (t, r) := Step(s, call); FeedOk(t, log + [Entry(call, r.Ok?)], feed)
  {
    var after := log + [Entry(call, Step(s, call).1.Ok?)];
    assert after[..|log|] == log;
  }

  /**
   * On every run, whatever the times: the stored reading of a feed is the
   * last accepted submission and carries the largest timestamp ever accepted.
   */
  lemma {:induction false} FeedNeverGoesBack(admin: nat, calls: seq<Call>, feed: nat)
    ensures var (s, log) := Run(Initial(admin), calls); FeedOk(s, log, feed)
  {
    if calls != [] {
      var n := |calls| - 1;
      FeedNeverGoesBack(admin, calls[..n], feed);
      var (s, log) := Run(Initial(admin), calls[..n]);
      FeedStep(s, log, calls[n], feed);
    }
  }

  lemma {:induction false} CooldownTracked(admin: nat, calls: seq<Call>, relayer: nat, feed: nat)
    ensures var (s, log) := Run(Initial(admin), calls); StoredAt(s, relayer, feed) == LastFrom(log, relayer, feed)
  {
    if calls != [] {
      var n := |calls| - 1;
      CooldownTracked(admin, calls[..n], relayer, feed);
      var (s, log) := Run(Initial(admin), calls[..n]);
      CooldownStep(s, calls[n], relayer, feed);
      assert (log + [Entry(calls[n], Step(s, calls[n]).1.Ok?)])[..n] == log;
    }
  }

  lemma CooldownStep(s: State, call: Call, relayer: nat, feed: nat)
    ensures var (t, r) := Step(s, call);
            StoredAt(t, relayer, feed)
            == if AcceptedFrom(Entry(call, r.Ok?), relayer, feed) then Some(call.now) else StoredAt(s, relayer, feed)
  {
  }

  /** With a ledger clock that does not run backwards, the last accepted submission is the latest one. */
  lemma {:induction false} LastFromIsLatest(log: seq<Entry>, relayer: nat, feed: nat)
    requires forall i, j :: 0 <= i < j < |log| ==> log[i].call.now <= log[j].call.now
    ensures LastFrom(log, relayer, feed).None? ==> forall k :: 0 <= k < |log| ==> !AcceptedFrom(log[k], relayer, feed)
    ensures LastFrom(log, relayer, feed).Some? ==>
              && (forall k :: 0 <= k < |log| && AcceptedFrom(log[k], relayer, feed) ==>
                    log[k].call.now <= LastFrom(log, relayer, feed).value)
              && exists k :: 0 <= k < |log| && AcceptedFrom(log[k], relayer, feed)
                             && log[k].call.now == LastFrom(log, relayer, feed).value
  {
    if log != [] {
      var n := |log| - 1;
      if !AcceptedFrom(log[n], relayer, feed) {
        LastFromIsLatest(log[..n], relayer, feed);
        if LastFrom(log, relayer, feed).Some? {
          var k :| 0 <= k < n && AcceptedFrom(log[..n][k], relayer, feed)
                   && log[..n][k].call.now == LastFrom(log, relayer, feed).value;
          assert log[k] == log[..n][k];
        }
      }
    }
  }

  /** What the documentation lets through, in terms of the accepted submissions so far. */
  ghost predicate Allowed(s: State, log: seq<Entry>, relayer: nat, feed: nat, timestamp: u64, now: u64) {
    && relayer in s.relayers
    && timestamp <= now <= timestamp + MAX_STALENESS_SECS
    && (forall k :: 0 <= k < |log| && AcceptedFrom(log[k], relayer, feed) ==>
          now >= log[k].call.now + MIN_SUBMISSION_INTERVAL_SECS)
    && (forall k :: 0 <= k < |log| && AcceptedOn(log[k], feed) ==> timestamp >= log[k].call.op.timestamp)
  }

  /**
   * Over any run with a clock that does not run backwards, a submission is
   * accepted exactly when the log allows it; so any two accepted submissions
   * of a relayer to a feed are a cooldown apart.
   */
  lemma SubmitRefinesLog(admin: nat, calls: seq<Call>, relayer: nat, feed: nat, value: i128, timestamp: u64,
                         source: nat, now: u64)
    requires NonDecreasing(calls + [Call(Submit(relayer, feed, value, timestamp, source), now)])
    ensures var (s, log) := Run(Initial(admin), calls);
            DoSubmit(s, relayer, feed, value, timestamp, source, now).1.Ok?
            <==> Allowed(s, log, relayer, feed, timestamp, now)
  {
    var (s, log) := Run(Initial(admin), calls);
    var all := calls + [Call(Submit(relayer, feed, value, timestamp, source), now)];
    assert forall i :: 0 <= i < |calls| ==> all[i] == calls[i] && all[i].now <= all[|calls|].now;
    FeedNeverGoesBack(admin, calls, feed);
    LastOnExists(log, feed);
    CooldownTracked(admin, calls, relayer, feed);
    LastFromIsLatest(log, relayer, feed);
  }

  lemma {:induction false} LastOnExists(log: seq<Entry>, feed: nat)
    ensures LastOn(log, feed).Some? ==>
              exists k :: 0 <= k < |log| && AcceptedOn(log[k], feed)
                          && log[k].call.op.timestamp == LastOn(log, feed).value.timestamp
  {
    if log != [] {
      var n := |log| - 1;
      if !AcceptedOn(log[n], feed) {
        LastOnExists(log[..n], feed);
        if LastOn(log, feed).Some? {
          var k :| 0 <= k < n && AcceptedOn(log[..n][k], feed)
                   && log[..n][k].call.op.timestamp == LastOn(log, feed).value.timestamp;
          assert log[k] == log[..n][k];
        }
      }
    }
  }

  /** Two accepted submissions of the same relayer to the same feed are at least the cooldown apart. */
  lemma {:induction false} CooldownHolds(admin: nat, calls: seq<Call>, i: nat, j: nat, relayer: nat, feed: nat)
    requires NonDecreasing(calls) && i < j < |calls|
    requires var log := Run(Initial(admin), calls).1;
             AcceptedFrom(log[i], relayer, feed) && AcceptedFrom(log[j], relayer, feed)
    ensures calls[j].now >= calls[i].now + MIN_SUBMISSION_INTERVAL_SECS
    decreases |calls|
  {
    var n := |calls| - 1;
    var log := Run(Initial(admin), calls[..n]).1;
    assert Run(Initial(admin), calls).1[..n] == log;
    if j < n {
      CooldownHolds(admin, calls[..n], i, j, relayer, feed);
    } else {
      var op := calls[n].op;
      assert calls[..n] + [calls[n]] == calls;
      SubmitRefinesLog(admin, calls[..n], relayer, feed, op.value, op.timestamp, op.source, calls[n].now);
      assert AcceptedFrom(log[i], relayer, feed);
    }
  }

  /** A reading handed out at or after the last call is the newest accepted one, no older than the limit, not in the future. */
  lemma ReadingIsFresh(admin: nat, calls: seq<Call>, feed: nat, now: u64)
    requires NonDecreasing(calls) && forall i :: 0 <= i < |calls| ==> calls[i].now <= now
    ensures var (s, log) := Run(Initial(admin), calls);
            var got := GetReading(s, feed, now);
            && (got.Ok? ==> LastOn(log, feed) == Some(got.value)
                            && now - MAX_STALENESS_SECS <= got.value.timestamp <= now)
            && (got == Err(FeedNotFound) <==> forall k :: 0 <= k < |log| ==> !AcceptedOn(log[k], feed))
  {
    var (s, log) := Run(Initial(admin), calls);
    FeedNeverGoesBack(admin, calls, feed);
    LastOnExists(log, feed);
    if feed in s.readings {
      var k :| 0 <= k < |log| && AcceptedOn(log[k], feed)
               && log[k].call.op.timestamp == s.readings[feed].timestamp;
      AcceptedNotFuture(admin, calls, k, feed);
    }
  }

  lemma {:induction false} AcceptedNotFuture(admin: nat, calls: seq<Call>, k: nat, feed: nat)
    requires k < |calls| && AcceptedOn(Run(Initial(admin), calls).1[k], feed)
    ensures calls[k].op.Submit? && calls[k].op.timestamp <= calls[k].now
  {
    var n := |calls| - 1;
    if k < n {
      AcceptedNotFuture(admin, calls[..n], k, feed);
    }
  }

  // ---------------------------------------------------------------------
  // Reputation across removals
  // ---------------------------------------------------------------------

  predicate Adjusts(e: Entry, relayer: nat) {
    e.ok && e.call.op.UpdateReputation? && e.call.op.relayer == relayer
  }

  /** The adjustments of a relayer made after its last activation, in order. */
  function DeltasSinceActivation(log: seq<Entry>, relayer: nat): seq<int> {
    if log == [] then []
    else
      var e := log[|log| - 1];
      if Activates(e, relayer) then []
      else DeltasSinceActivation(log[..|log| - 1], relayer) + if Adjusts(e, relayer) then [e.call.op.delta] else []
  }

  /** All adjustments of a relayer ever made. */
  function AllDeltas(log: seq<Entry>, relayer: nat): seq<int> {
    if log == [] then []
    else
      var e := log[|log| - 1];
      AllDeltas(log[..|log| - 1], relayer) + if Adjusts(e, relayer) then [e.call.op.delta] else []
  }

  /** The initial score adjusted step by step, kept within its bounds after each. */
  function Score(deltas: seq<int>): i128 {
    if deltas == [] then REPUTATION_INITIAL
    else Clamp(Score(deltas[..|deltas| - 1]) + deltas[|deltas| - 1])
  }

  lemma ScoreSnoc(deltas: seq<int>, d: int)
    ensures Score(deltas + [d]) == Clamp(Score(deltas) + d)
  {
    assert (deltas + [d])[..|deltas|] == deltas;
  }

  predicate Scores(e: Entry, relayer: nat) {
    Activates(e, relayer) || Adjusts(e, relayer)
  }

  ghost predicate Scored(log: seq<Entry>, relayer: nat) {
    exists e :: e in log && Scores(e, relayer)
  }

  lemma ScoredSnoc(log: seq<Entry>, e: Entry, relayer: nat)
    ensures Scored(log + [e], relayer) <==> Scored(log, relayer) || Scores(e, relayer)
  {
    assert forall d :: d in log + [e] <==> d in log || d == e;
  }

  /** The score on record, if there ever was a reason for one, is what the log makes it. */
  ghost predicate ScoreOk(s: State, log: seq<Entry>, relayer: nat) {
    && (relayer in s.reputation <==> Scored(log, relayer))
    && (if relayer in s.reputation then s.reputation[relayer] == Score(DeltasSinceActivation(log, relayer))
        else DeltasSinceActivation(log, relayer) == [])
  }

  /** What one call does to a score. An activation always sets it: a pending relayer is never active. */
  lemma ReputationStep(s: State, call: Call, relayer: nat)
    requires Inv(s)
    ensures var (t, r) := Step(s, call);
            var e := Entry(call, r.Ok?);
            var current := if relayer in s.reputation then s.reputation[relayer] else REPUTATION_INITIAL;
            if Activates(e, relayer) then relayer in t.reputation && t.reputation[relayer] == REPUTATION_INITIAL
            else if Adjusts(e, relayer) then
              relayer in t.reputation && t.reputation[relayer] == Clamp(current + call.op.delta)
            else
              && (relayer in t.reputation <==> relayer in s.reputation)
              && (relayer in s.reputation ==> t.reputation[relayer] == s.reputation[relayer])
  {
  }

  lemma ScoreStep(s: State, log: seq<Entry>, call: Call, relayer: nat)
    requires Inv(s) && ScoreOk(s, log, relayer)
    ensures var (t, r) := Step(s, call); ScoreOk(t, log + [Entry(call, r.Ok?)], relayer)
  {
    var (t, r) := Step(s, call);
    var e := Entry(call, r.Ok?);
    var after := log + [e];
    assert after[..|log|] == log && after[|log|] == e;
    ReputationStep(s, call, relayer);
    ScoredSnoc(log, e, relayer);
    var deltas := DeltasSinceActivation(log, relayer);
    if Adjusts(e, relayer) {
      ScoreSnoc(deltas, call.op.delta);
      assert DeltasSinceActivation(after, relayer) == deltas + [call.op.delta];
    } else if !Activates(e, relayer) {
      assert DeltasSinceActivation(after, relayer) == deltas + [] == deltas;
    }
  }

  /**
   * On every run, a relayer's reputation is the initial score with the
   * adjustments since its last activation. Contrary to the comment on it, a
   * later registration starts over: all adjustments ever made count if and
   * only if none of them is followed by an activation.
   */
  lemma {:induction false} ReputationSinceActivation(admin: nat, calls: seq<Call>, relayer: nat)
    ensures var (s, log) := Run(Initial(admin), calls);
            && ScoreOk(s, log, relayer)
            && (DeltasSinceActivation(log, relayer) == AllDeltas(log, relayer)
                <==> NoneFollowed(log, relayer))
  {
    AdjustmentsSurvive(Run(Initial(admin), calls).1, relayer);
    if calls != [] {
      var n := |calls| - 1;
      ReputationSinceActivation(admin, calls[..n], relayer);
      RunKeeps(admin, calls[..n]);
      var (s, log) := Run(Initial(admin), calls[..n]);
      ScoreStep(s, log, calls[n], relayer);
    }
  }

  /** No adjustment is followed by an activation. */
  ghost predicate NoneFollowed(log: seq<Entry>, relayer: nat) {
    forall i, j :: 0 <= i < j < |log| && Adjusts(log[i], relayer) ==> !Activates(log[j], relayer)
  }

  lemma NoneFollowedStep(log: seq<Entry>, relayer: nat)
    requires log != []
    ensures var n := |log| - 1;
            NoneFollowed(log, relayer) <==>
              && NoneFollowed(log[..n], relayer)
              && (Activates(log[n], relayer) ==> forall k :: 0 <= k < n ==> !Adjusts(log[k], relayer))
  {
    var n := |log| - 1;
    assert forall k :: 0 <= k < n ==> log[..n][k] == log[k];
  }

  lemma {:induction false} AdjustmentsSurvive(log: seq<Entry>, relayer: nat)
    ensures |DeltasSinceActivation(log, relayer)| <= |AllDeltas(log, relayer)|
    ensures AllDeltas(log, relayer) == [] <==> forall k :: 0 <= k < |log| ==> !Adjusts(log[k], relayer)
    ensures DeltasSinceActivation(log, relayer) == AllDeltas(log, relayer) <==> NoneFollowed(log, relayer)
  {
    if log != [] {
      var n := |log| - 1;
      var front := log[..n];
      AdjustmentsSurvive(front, relayer);
      assert forall k :: 0 <= k < n ==> front[k] == log[k];
      NoneFollowedStep(log, relayer);
      if Activates(log[n], relayer) {
        assert DeltasSinceActivation(log, relayer) == [];
        assert AllDeltas(log, relayer) == AllDeltas(front, relayer);
      } else if Adjusts(log[n], relayer) {
        var d: int := log[n].call.op.delta;
        var some, all := DeltasSinceActivation(front, relayer), AllDeltas(front, relayer);
        assert DeltasSinceActivation(log, relayer) == some + [d] && AllDeltas(log, relayer) == all + [d];
        if some + [d] == all + [d] {
          assert some == (some + [d])[..|some|] == (all + [d])[..|all|] == all;
        }
      } else {
        var some, all := DeltasSinceActivation(front, relayer), AllDeltas(front, relayer);
        assert DeltasSinceActivation(log, relayer) == some + [] == some && AllDeltas(log, relayer) == all + [] == all;
      }
    }
  }

  /** Queue, activate, penalize, remove, queue and activate again. */
  function PenaltyThenReturn(admin: nat, relayer: nat, t0: u64, t1: u64, t2: u64): seq<Call> {
    [Call(AddRelayer(admin, relayer), t0), Call(ActivateRelayer(relayer), t1),
     Call(UpdateReputation(admin, relayer, -50), t1), Call(RemoveRelayer(admin, relayer), t1),
     Call(AddRelayer(admin, relayer), t1), Call(ActivateRelayer(relayer), t2)]
  }

  lemma PenaltyLands(admin: nat, relayer: nat, t0: u64, t1: u64, t2: u64)
    requires t0 + MIN_ADDITION_NOTICE_PERIOD_SECS <= t1
    ensures Run(Initial(admin), PenaltyThenReturn(admin, relayer, t0, t1, t2)[..3]).0
         == Initial(admin).(relayers := [relayer], reputation := map[relayer := 50])
  {
    var calls, s := PenaltyThenReturn(admin, relayer, t0, t1, t2), Initial(admin);
    RunTo(s, calls, 1, s.(pending := map[relayer := t0]));
    RunTo(s, calls, 2, s.(relayers := [relayer], reputation := map[relayer := 100]));
    RunTo(s, calls, 3, s.(relayers := [relayer], reputation := map[relayer := 50]));
  }

  /** A removal keeps the penalized score; the second registration wipes it out. */
  lemma PenaltyForgotten(admin: nat, relayer: nat, t0: u64, t1: u64, t2: u64)
    requires t0 + MIN_ADDITION_NOTICE_PERIOD_SECS <= t1 && t1 + MIN_ADDITION_NOTICE_PERIOD_SECS <= t2
    ensures var calls := PenaltyThenReturn(admin, relayer, t0, t1, t2);
            && Run(Initial(admin), calls[..4]).0.reputation == map[relayer := 50]
            && Run(Initial(admin), calls).0.reputation == map[relayer := 100]
            && Run(Initial(admin), calls).0.relayers == [relayer]
  {
    var calls, s := PenaltyThenReturn(admin, relayer, t0, t1, t2), Initial(admin);
    PenaltyLands(admin, relayer, t0, t1, t2);
    assert Without([relayer], relayer) == [];
    RunTo(s, calls, 4, s.(reputation := map[relayer := 50]));
    RunTo(s, calls, 5, s.(reputation := map[relayer := 50], pending := map[relayer := t1]));
    RunTo(s, calls, 6, s.(relayers := [relayer], reputation := map[relayer := 100]));
    assert calls[..6] == calls;
  }

  lemma RunTo(s: State, calls: seq<Call>, k: nat, t: State)
    requires 0 < k <= |calls| && Step(Run(s, calls[..k - 1]).0, calls[k - 1]).0 == t
    ensures Run(s, calls[..k]).0 == t
  {
    assert calls[..k][..k - 1] == calls[..k - 1];
  }

  // ---------------------------------------------------------------------
  // The contract
  // ---------------------------------------------------------------------

  class RefractOracle {
    var admin: nat
    var pendingAdmin: Option<nat>
    var relayers: seq<nat>
    var pending: map<nat, u64>
    var readings: map<nat, Reading>
    var lastSubmissionAt: map<Pair, u64>
    var reputation: map<nat, i128>

    constructor (admin: nat)
      ensures View() == Initial(admin)
    {
      this.admin, pendingAdmin, relayers := admin, None, [];
      pending, readings, lastSubmissionAt, reputation := map[], map[], map[], map[];
    }

    function View(): State
      reads this
    {
      State(admin, pendingAdmin, relayers, pending, readings, lastSubmissionAt, reputation)
    }

    method Add(caller: nat, relayer: nat, now: u64) returns (r: Result<(), OracleError>)
      modifies this`pending
      ensures (View(), r) == DoAdd(old(View()), caller, relayer, now)
    {
      if caller != admin {
        return Err(Unauthorized);
      }
      if relayer in relayers {
        return Ok(());
      }
      pending := pending[relayer := now];
      return Ok(());
    }

    method Activate(relayer: nat, now: u64) returns (r: Result<(), OracleError>)
      modifies this
      ensures (View(), r) == DoActivate(old(View()), relayer, now)
    {
      if relayer !in pending {
        return Err(RelayerNotPending);
      }
      var queuedAt := pending[relayer];
      if now < SaturatingAddU64(queuedAt, MIN_ADDITION_NOTICE_PERIOD_SECS) {
        return Err(NoticePeriodNotElapsed);
      }
      if relayer !in relayers {
        relayers := relayers + [relayer];
        reputation := reputation[relayer := REPUTATION_INITIAL];
      }
      pending := pending - {relayer};
      return Ok(());
    }

    /** The list is rebuilt without the relayer, and a pending entry is cancelled. */
    method Remove(caller: nat, relayer: nat) returns (r: Result<(), OracleError>)
      modifies this
      ensures (View(), r) == DoRemove(old(View()), caller, relayer)
    {
      if caller != admin {
        return Err(Unauthorized);
      }
      var filtered: seq<nat> := [];
      for i := 0 to |relayers|
        invariant filtered == Without(relayers[..i], relayer)
      {
        assert relayers[..i + 1][..i] == relayers[..i];
        if relayers[i] != relayer {
          filtered := filtered + [relayers[i]];
        }
      }
      assert relayers[..|relayers|] == relayers;
      relayers := filtered;
      if relayer in pending {
        pending := pending - {relayer};
      }
      assert pending == old(pending) - {relayer};
      return Ok(());
    }

    method AdjustReputation(caller: nat, relayer: nat, delta: i128) returns (r: Result<(), OracleError>)
      modifies this`reputation
      ensures (View(), r) == DoUpdateReputation(old(View()), caller, relayer, delta)
    {
      if caller != admin {
        return Err(Unauthorized);
      }
      var current := if relayer in reputation then reputation[relayer] else REPUTATION_INITIAL;
      if !FitsI128(current + delta) {
        return Err(Trapped);
      }
      var updated := current + delta;
      if updated < REPUTATION_FLOOR {
        updated := REPUTATION_FLOOR;
      }
      if updated > REPUTATION_CEILING {
        updated := REPUTATION_CEILING;
      }
      reputation := reputation[relayer := updated];
      return Ok(());
    }

    method Propose(caller: nat, newAdmin: nat) returns (r: Result<(), OracleError>)
      modifies this`pendingAdmin
      ensures (View(), r) == DoProposeAdmin(old(View()), caller, newAdmin)
    {
      if caller != admin {
        return Err(Unauthorized);
      }
      pendingAdmin := Some(newAdmin);
      return Ok(());
    }

    method Accept(caller: nat) returns (r: Result<(), OracleError>)
      modifies this
      ensures (View(), r) == DoAcceptAdmin(old(View()), caller)
    {
      if pendingAdmin.None? {
        return Err(NoPendingAdmin);
      }
      if pendingAdmin.value != caller {
        return Err(Unauthorized);
      }
      admin := caller;
      pendingAdmin := None;
      return Ok(());
    }

    /** The cooldown is restarted before the feed's order is checked; a refusal takes that back. */
    method SubmitReading(relayer: nat, feed: nat, value: i128, timestamp: u64, source: nat, now: u64)
      returns (r: Result<(), OracleError>)
      modifies this
      ensures (View(), r) == DoSubmit(old(View()), relayer, feed, value, timestamp, source, now)
    {
      if relayer !in relayers {
        return Err(Unauthorized);
      }
      if timestamp > now {
        return Err(FutureTimestamp);
      }
      if now - timestamp > MAX_STALENESS_SECS {
        return Err(StaleReading);
      }
      var pair := Pair(relayer, feed);
      if pair in lastSubmissionAt {
        if SaturatingSubU64(now, lastSubmissionAt[pair]) < MIN_SUBMISSION_INTERVAL_SECS {
          return Err(SubmittedTooSoon);
        }
      }
      var before := lastSubmissionAt;
      lastSubmissionAt := lastSubmissionAt[pair := now];
      if feed in readings {
        if timestamp < readings[feed].timestamp {
          lastSubmissionAt := before;
          return Err(StaleSubmission);
        }
      }
      readings := readings[feed := Reading(value, timestamp, source)];
      return Ok(());
    }
  }
}
