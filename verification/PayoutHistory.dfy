/** Every field of a payout record, traced back to the calls that were made. */
module PayoutHistory {
  import opened Results
  import opened History
  import opened Payout

  /** An accepted call and its reply. */
  datatype Entry = Entry(call: Call, reply: Reply)

  function Log(calls: seq<Call>): seq<Entry> {
    if calls == [] then []
    else
      var n := |calls| - 1;
      var r := Step(Run(EMPTY, calls[..n]), calls[n]).1;
      Log(calls[..n]) + if r.Ok? then [Entry(calls[n], r.value)] else []
  }

  function Creates(id: nat): Entry -> bool {
    (e: Entry) => e.call.op.Pay? && e.reply.Attempted? && e.reply.id == Some(id)
  }

  function Redirects(id: nat): Entry -> bool {
    (e: Entry) => e.call.op.Redirect? && e.call.op.id == id
  }

  /** The payment itself, or a retry. */
  function Attempts(id: nat): Entry -> bool {
    (e: Entry) => Creates(id)(e) || (e.call.op.Retry? && e.call.op.id == id)
  }

  function Refuses(id: nat): Entry -> bool {
    (e: Entry) => Attempts(id)(e) && !AnswerOf(e).Success?
  }

  function Delivers(id: nat): Entry -> bool {
    (e: Entry) => e.call.op.Retry? && e.call.op.id == id && e.call.op.answer.Success?
  }

  function Reclaims(id: nat): Entry -> bool {
    (e: Entry) => e.call.op.Reclaim? && e.call.op.id == id
  }

  /** Who is to be paid, as far as the accepted calls say. */
  function Payee(log: seq<Entry>, id: nat): Option<nat> {
    match Last(log, Redirects(id))
    case Some(e) => if e.call.op.Redirect? then Some(e.call.op.recipient) else None
    case None =>
      match Last(log, Creates(id))
      case Some(e) => if e.call.op.Pay? then Some(e.call.op.recipient) else None
      case None => None
  }

  function StatusOf(log: seq<Entry>, id: nat): Status {
    if Last(log, Delivers(id)).Some? then Paid
    else if Last(log, Reclaims(id)).Some? then Reclaimed
    else Failed
  }

  /** What the token answered an attempt. */
  function AnswerOf(e: Entry): Outcome {
    if e.call.op.Pay? then e.call.op.answer else if e.call.op.Retry? then e.call.op.answer else Success
  }

  /** The record says what the log says. */
  ghost predicate Traced(r: Record, log: seq<Entry>, id: nat) {
    var c, a, f := Last(log, Creates(id)), Last(log, Attempts(id)), Last(log, Refuses(id));
    && c.Some? && a.Some? && f.Some? && c.value.call.op.Pay?
    && r.id == id && r.token == c.value.call.op.token && r.amount == c.value.call.op.amount
    && r.context == c.value.call.op.context && r.firstFailedAt == c.value.call.now
    && Some(r.recipient) == Payee(log, id)
    && r.lastAttemptAt == a.value.call.now && r.reason == AnswerOf(f.value)
    && r.status == StatusOf(log, id)
    && r.attempts == Capped(Count(log, Attempts(id)))
  }

  /** A u32 count that saturates. */
  function Capped(n: nat): nat {
    if n > U32_MAX then U32_MAX else n
  }

  /** No entry concerns an id that has not been handed out. */
  ghost predicate Untold(log: seq<Entry>, id: nat) {
    && Last(log, Creates(id)).None? && Last(log, Redirects(id)).None? && Last(log, Attempts(id)).None?
    && Last(log, Refuses(id)).None? && Last(log, Delivers(id)).None? && Last(log, Reclaims(id)).None?
    && Count(log, Creates(id)) == 0 && Count(log, Attempts(id)) == 0
  }

  ghost predicate HistoryOk(s: State, log: seq<Entry>, id: nat) {
    if id in s.records then Traced(s.records[id], log, id) && Count(log, Creates(id)) == 1
    else Untold(log, id)
  }

  /** The entry bears on one id at most, in one way. */
  lemma EntrySnoc(log: seq<Entry>, e: Entry, id: nat)
    ensures Last(log + [e], Creates(id)) == if Creates(id)(e) then Some(e) else Last(log, Creates(id))
    ensures Last(log + [e], Redirects(id)) == if Redirects(id)(e) then Some(e) else Last(log, Redirects(id))
    ensures Last(log + [e], Attempts(id)) == if Attempts(id)(e) then Some(e) else Last(log, Attempts(id))
    ensures Last(log + [e], Refuses(id)) == if Refuses(id)(e) then Some(e) else Last(log, Refuses(id))
    ensures Last(log + [e], Delivers(id)) == if Delivers(id)(e) then Some(e) else Last(log, Delivers(id))
    ensures Last(log + [e], Reclaims(id)) == if Reclaims(id)(e) then Some(e) else Last(log, Reclaims(id))
    ensures Count(log + [e], Creates(id)) == Count(log, Creates(id)) + if Creates(id)(e) then 1 else 0
    ensures Count(log + [e], Attempts(id)) == Count(log, Attempts(id)) + if Attempts(id)(e) then 1 else 0
  {
    LastSnoc(log, e, Creates(id));
    LastSnoc(log, e, Redirects(id));
    LastSnoc(log, e, Attempts(id));
    LastSnoc(log, e, Refuses(id));
    LastSnoc(log, e, Delivers(id));
    LastSnoc(log, e, Reclaims(id));
    CountSnoc(log, e, Creates(id));
    CountSnoc(log, e, Attempts(id));
  }

  /** What an accepted call does to the record of one id. */
  lemma RecordStep(s: State, call: Call, id: nat)
    requires Inv(s) && Step(s, call).1.Ok?
    ensures var (t, q) := Step(s, call);
            var e := Entry(call, q.value);
            && (id in s.records ==> id in t.records && !Creates(id)(e))
            && (id !in s.records ==>
                  && !Redirects(id)(e) && !Delivers(id)(e) && !Reclaims(id)(e)
                  && (Attempts(id)(e) <==> Creates(id)(e)) && (id in t.records <==> Creates(id)(e))
                  && (id in t.records ==> Refuses(id)(e)))
            && (id in t.records ==>
                  t.records[id] == if Creates(id)(e) then
                                     Record(id, call.op.token, call.op.recipient, call.op.amount, Failed, call.op.answer,
                                            1, call.now, call.now, call.op.context)
                                   else Touched(s.records[id], e))
  {
  }

  /** What an entry does to an existing record. */
  function Touched(r: Record, e: Entry): Record {
    if Redirects(r.id)(e) then r.(recipient := e.call.op.recipient)
    else if Attempts(r.id)(e) then
      var tried := r.(lastAttemptAt := e.call.now, attempts := if r.attempts < U32_MAX then r.attempts + 1 else r.attempts);
      if AnswerOf(e).Success? then tried.(status := Paid) else tried.(reason := AnswerOf(e))
    else if Reclaims(r.id)(e) then r.(status := Reclaimed)
    else r
  }

  /** Only a payout that is still Failed is touched again. */
  lemma TouchedWasFailed(s: State, call: Call, id: nat)
    requires Inv(s) && id in s.records && Step(s, call).1.Ok?
    ensures var e := Entry(call, Step(s, call).1.value);
            Redirects(id)(e) || Attempts(id)(e) || Reclaims(id)(e) ==> s.records[id].status.Failed?
  {
    RecordStep(s, call, id);
  }

  /**
   * On every run, each record comes from exactly one payment that the token
   * refused, and keeps its token, amount, context and time; it is owed to the
   * recipient of the last redirection, or else of that payment; and its
   * attempts, reason and status are those of the attempts and reclaims made.
   */
  lemma {:induction false} RecordsAreTraced(calls: seq<Call>, id: nat)
    ensures HistoryOk(Run(EMPTY, calls), Log(calls), id)
  {
    if calls != [] {
      var n := |calls| - 1;
      var s := Run(EMPTY, calls[..n]);
      RecordsAreTraced(calls[..n], id);
      RunKeepsInv(calls[..n]);
      var r := Step(s, calls[n]).1;
      if r.Ok? {
        EntryTraced(s, Log(calls[..n]), calls[n], id);
      } else {
        assert Log(calls[..n]) + [] == Log(calls[..n]);
      }
    }
  }

  lemma EntryTraced(s: State, log: seq<Entry>, call: Call, id: nat)
    requires Inv(s) && HistoryOk(s, log, id) && Step(s, call).1.Ok?
    ensures HistoryOk(Step(s, call).0, log + [Entry(call, Step(s, call).1.value)], id)
  {
    var (t, q) := Step(s, call);
    EntrySnoc(log, Entry(call, q.value), id);
    RecordStep(s, call, id);
    if id in s.records {
      TouchedWasFailed(s, call, id);
    }
  }

  /** A payment the token refused. */
  function Fails(): Entry -> bool {
    (e: Entry) => e.call.op.Pay? && e.reply.Attempted? && e.reply.id.Some?
  }

  /** Ids are handed out one by one. */
  lemma {:induction false} IdsInOrder(calls: seq<Call>)
    ensures Run(EMPTY, calls).nextId == Count(Log(calls), Fails())
  {
    if calls != [] {
      var n := |calls| - 1;
      IdsInOrder(calls[..n]);
      var (t, r) := Step(Run(EMPTY, calls[..n]), calls[n]);
      if r.Ok? {
        CountSnoc(Log(calls[..n]), Entry(calls[n], r.value), Fails());
      } else {
        assert Log(calls[..n]) + [] == Log(calls[..n]);
      }
    }
  }

  /**
   * What a call is answered with after any run, in terms of the accepted calls
   * before it: a retry, a redirection or a reclaim is accepted exactly for a
   * payout that failed and was neither delivered nor reclaimed since, and an
   * accepted redirection hands back the record with its new payee.
   */
  lemma AnsweredByHistory(calls: seq<Call>, call: Call)
    ensures var log := Log(calls);
            var (t, r) := Step(Run(EMPTY, calls), call);
            match call.op
            case Pay(_, _, amount, _, answer) =>
              if amount <= 0 || answer.Success? then r == Ok(Attempted(Success, None))
              else
                var id := Count(log, Fails());
                if id < U64_MAX then r == Ok(Attempted(answer, Some(id))) && id in t.records else r == Err(Trapped)
            case Retry(id, answer) =>
              if IsOwed(log, id) then r == Ok(Attempted(answer, None)) else r.Err?
            case Redirect(id, recipient) =>
              if IsOwed(log, id) && Payee(log, id) != Some(recipient) then
                id in t.records && r == Ok(Updated(t.records[id])) && t.records[id].recipient == recipient
              else r.Err?
            case Reclaim(id) =>
              if IsOwed(log, id) && call.now >= ReclaimableFrom(log, id) then
                id in t.records && r == Ok(Updated(t.records[id])) && t.records[id].status == Reclaimed
              else r.Err?
  {
    RunKeepsInv(calls);
    IdsInOrder(calls);
    if !call.op.Pay? {
      RecordsAreTraced(calls, call.op.id);
    }
  }

  predicate IsOwed(log: seq<Entry>, id: nat) {
    Last(log, Creates(id)).Some? && StatusOf(log, id) == Failed
  }

  function ReclaimableFrom(log: seq<Entry>, id: nat): u64
    requires IsOwed(log, id)
  {
    SaturatingAddU64(Last(log, Creates(id)).value.call.now, RECLAIM_TIMEOUT_SECS)
  }
}
