/**
 * Per-caller, per-entrypoint fixed-window rate limiting, refined against a
 * limiter that keeps a full log of calls and counts.
 */
module RateLimit {
  import opened Bits
  import opened Results

  datatype Limit = Limit(maxCalls: nat, windowLedgers: nat)

  datatype RateLimitError = Limited | InvalidLimit

  datatype Key = Key(caller: nat, entrypoint: nat)

  datatype Counter = Counter(window: nat, used: nat)

  datatype State = State(defaultLimit: Limit, limits: map<nat, Limit>, counters: map<Key, Counter>)

  predicate ValidLimit(limit: Limit) {
    limit.maxCalls > 0 && limit.windowLedgers > 0
  }

  function LimitFor(s: State, entrypoint: nat): Limit {
    if entrypoint in s.limits then s.limits[entrypoint] else s.defaultLimit
  }

  /** The call's decision and the counters after it. */
  function CheckAndRecord(s: State, key: Key, ledger: nat): (State, Result<(), RateLimitError>) {
    var limit := LimitFor(s, key.entrypoint);
    if !ValidLimit(limit) then (s, Err(InvalidLimit))
    else
      var window := ledger / limit.windowLedgers;
      var used := if key in s.counters && s.counters[key].window == window then s.counters[key].used else 0;
      if used >= limit.maxCalls then (s, Err(Limited))
      else (s.(counters := s.counters[key := Counter(window, used + 1)]), Ok(()))
  }

  class RateLimiter {
    const defaultLimit: Limit
    var limits: map<nat, Limit>
    var counters: map<Key, Counter>

    constructor (defaultLimit: Limit)
      ensures View() == State(defaultLimit, map[], map[])
    {
      this.defaultLimit := defaultLimit;
      limits, counters := map[], map[];
    }

    function View(): State
      reads this
    {
      State(defaultLimit, limits, counters)
    }

    method SetLimit(entrypoint: nat, limit: Limit) returns (r: Result<(), RateLimitError>)
      modifies this`limits
      ensures r == if ValidLimit(limit) then Ok(()) else Err(InvalidLimit)
      ensures View() == if r.Ok? then old(View()).(limits := old(limits)[entrypoint := limit]) else old(View())
    {
      if !ValidLimit(limit) {
        return Err(InvalidLimit);
      }
      limits := limits[entrypoint := limit];
      return Ok(());
    }

    /** A refused call leaves the counters as they were, although the counter is reset before the check. */
    method Check(caller: nat, entrypoint: nat, ledger: nat) returns (r: Result<(), RateLimitError>)
      modifies this`counters
      ensures (View(), r) == CheckAndRecord(old(View()), Key(caller, entrypoint), ledger)
    {
      var limit := LimitFor(View(), entrypoint);
      if !ValidLimit(limit) {
        return Err(InvalidLimit);
      }
      var window := ledger / limit.windowLedgers;
      var key := Key(caller, entrypoint);
      if key !in counters {
        counters := counters[key := Counter(window, 0)];
      }
      if counters[key].window != window {
        counters := counters[key := Counter(window, 0)];
      }
      if counters[key].used >= limit.maxCalls {
        return Err(Limited);
      }
      counters := counters[key := Counter(window, counters[key].used + 1)];
      assert counters == old(counters)[key := counters[key]];
      return Ok(());
    }
  }

  // ---------------------------------------------------------------------
  // The limiter with a full log
  // ---------------------------------------------------------------------

  datatype Call = Call(key: Key, ledger: nat)

  datatype Logged = Logged(call: Call, accepted: bool)

  /** Accepted calls of one key whose ledger lies in [from, to). */
  ghost function CountBetween(log: seq<Logged>, key: Key, from: int, to: int): nat {
    if log == [] then 0
    else
      var l := log[|log| - 1];
      CountBetween(log[..|log| - 1], key, from, to)
      + if l.accepted && l.call.key == key && from <= l.call.ledger < to then 1 else 0
  }

  /** Accepted calls of one key in window number `window`. */
  ghost function CountWindow(log: seq<Logged>, key: Key, width: nat, window: nat): nat
  {
    CountBetween(log, key, window * width, window * width + width)
  }

  /** What the specification promises: fewer than max_calls accepted calls in the same window. */
  ghost predicate Allowed(s: State, log: seq<Logged>, call: Call) {
    var limit := if call.key.entrypoint in s.limits then s.limits[call.key.entrypoint] else s.defaultLimit;
    limit.maxCalls > 0 && limit.windowLedgers > 0
    && CountWindow(log, call.key, limit.windowLedgers, call.ledger / limit.windowLedgers) < limit.maxCalls
  }

  /** Runs calls through the counters, logging the decisions. */
  ghost function Run(s: State, calls: seq<Call>): (State, seq<Logged>) {
    if calls == [] then (s, [])
    else
      var n := |calls| - 1;
      var (t, log) := Run(s, calls[..n]);
      var (u, r) := CheckAndRecord(t, calls[n].key, calls[n].ledger);
      (u, log + [Logged(calls[n], r.Ok?)])
  }

  predicate NonDecreasing(calls: seq<Call>) {
    forall i, j :: 0 <= i < j < |calls| ==> calls[i].ledger <= calls[j].ledger
  }

  /**
   * The counters summarise the log: each holds the accepted calls of its own
   * window, and no accepted call of the key is in a later window.
   */
  ghost predicate Tracks(s: State, log: seq<Logged>, key: Key) {
    var limit := LimitFor(s, key.entrypoint);
    ValidLimit(limit) ==>
      if key in s.counters then
        var c := s.counters[key];
        && 0 < c.used <= limit.maxCalls
        && c.used == CountWindow(log, key, limit.windowLedgers, c.window)
        && (forall w: nat :: CountWindow(log, key, limit.windowLedgers, w) <= limit.maxCalls)
        && (forall w: nat :: w > c.window ==> CountWindow(log, key, limit.windowLedgers, w) == 0)
        && (exists i :: 0 <= i < |log| && InWindow(log[i], limit.windowLedgers, c.window))
      else forall w: nat :: CountWindow(log, key, limit.windowLedgers, w) == 0
  }

  predicate InWindow(l: Logged, width: nat, window: nat) {
    window * width <= l.call.ledger
  }

  lemma CountSnoc(log: seq<Logged>, l: Logged, key: Key, from: int, to: int)
    ensures CountBetween(log + [l], key, from, to)
         == CountBetween(log, key, from, to) + if l.accepted && l.call.key == key && from <= l.call.ledger < to then 1 else 0
  {
    assert (log + [l])[..|log|] == log;
  }

  /** A ledger lies in the window its quotient names, and in no other. */
  lemma WindowOf(ledger: nat, width: nat, w: nat)
    requires width > 0
    ensures w * width <= ledger < w * width + width <==> w == ledger / width
  {
    var q := ledger / width;
    assert ledger == width * q + ledger % width;
    if w * width <= ledger < w * width + width {
      DivModUnique(ledger, width, w, ledger - w * width);
    }
  }

  /** One call: the counters decide as the log does, and keep summarising it. */
  lemma StepTracks(s: State, log: seq<Logged>, call: Call)
    requires Tracks(s, log, call.key)
    requires forall i :: 0 <= i < |log| ==> log[i].call.ledger <= call.ledger
    ensures var (t, r) := CheckAndRecord(s, call.key, call.ledger);
            && (r.Ok? <==> Allowed(s, log, call))
            && Tracks(t, log + [Logged(call, r.Ok?)], call.key)
  {
    var limit := LimitFor(s, call.key.entrypoint);
    var (t, r) := CheckAndRecord(s, call.key, call.ledger);
    if ValidLimit(limit) {
      var width, key := limit.windowLedgers, call.key;
      var window := call.ledger / width;
      var l := Logged(call, r.Ok?);
      if key in s.counters {
        var i :| 0 <= i < |log| && InWindow(log[i], width, s.counters[key].window);
        WindowMonotone(s.counters[key].window, width, call.ledger);
      }
      forall w: nat
        ensures CountWindow(log + [l], key, width, w)
             == CountWindow(log, key, width, w) + if r.Ok? && w == window then 1 else 0
      {
        CountSnoc(log, l, key, w * width, w * width + width);
        WindowOf(call.ledger, width, w);
      }
      StepKeepsCounter(s, log, call, t, r.Ok?);
    }
  }

  lemma WindowMonotone(w: nat, width: nat, ledger: nat)
    requires width > 0 && w * width <= ledger
    ensures w <= ledger / width
  {
    var q := ledger / width;
    assert ledger == width * q + ledger % width;
    if w > q {
      MulMonotone(width, q + 1, w);
    }
  }

  lemma StepKeepsCounter(s: State, log: seq<Logged>, call: Call, t: State, ok: bool)
    requires Tracks(s, log, call.key) && ValidLimit(LimitFor(s, call.key.entrypoint))
    requires var (u, r) := CheckAndRecord(s, call.key, call.ledger); t == u && ok == r.Ok?
    requires var width := LimitFor(s, call.key.entrypoint).windowLedgers;
             && (call.key in s.counters ==> s.counters[call.key].window <= call.ledger / width)
             && forall w: nat :: CountWindow(log + [Logged(call, ok)], call.key, width, w)
                  == CountWindow(log, call.key, width, w) + if ok && w == call.ledger / width then 1 else 0
    ensures Tracks(t, log + [Logged(call, ok)], call.key)
  {
    var width := LimitFor(s, call.key.entrypoint).windowLedgers;
    var log' := log + [Logged(call, ok)];
    if ok {
      WindowOf(call.ledger, width, call.ledger / width);
      assert InWindow(log'[|log|], width, call.ledger / width);
    } else if call.key in s.counters {
      var i :| 0 <= i < |log| && InWindow(log[i], width, s.counters[call.key].window);
      assert InWindow(log'[i], width, s.counters[call.key].window);
    }
  }

  /** Calls of other keys disturb neither a counter nor the log's count for this key. */
  lemma OtherKeyTracks(s: State, log: seq<Logged>, call: Call, key: Key)
    requires Tracks(s, log, key) && key != call.key
    ensures var (t, r) := CheckAndRecord(s, call.key, call.ledger);
            Tracks(t, log + [Logged(call, r.Ok?)], key)
  {
    var limit := LimitFor(s, key.entrypoint);
    var (t, r) := CheckAndRecord(s, call.key, call.ledger);
    var l := Logged(call, r.Ok?);
    forall w: nat
      ensures CountWindow(log + [l], key, limit.windowLedgers, w) == CountWindow(log, key, limit.windowLedgers, w)
    {
      CountSnoc(log, l, key, w * limit.windowLedgers, w * limit.windowLedgers + limit.windowLedgers);
    }
    if ValidLimit(limit) && key in s.counters {
      var i :| 0 <= i < |log| && InWindow(log[i], limit.windowLedgers, s.counters[key].window);
      assert InWindow((log + [l])[i], limit.windowLedgers, s.counters[key].window);
    }
  }

  ghost predicate Fresh(s: State) {
    s.counters == map[]
  }

  lemma {:induction false} RunTracks(s: State, calls: seq<Call>, key: Key)
    requires Fresh(s) && NonDecreasing(calls)
    ensures var (t, log) := Run(s, calls);
            && |log| == |calls| && (forall i :: 0 <= i < |log| ==> log[i].call == calls[i])
            && t.limits == s.limits && t.defaultLimit == s.defaultLimit
            && Tracks(t, log, key)
  {
    if calls != [] {
      var n := |calls| - 1;
      RunTracks(s, calls[..n], key);
      var (t, log) := Run(s, calls[..n]);
      if key == calls[n].key {
        StepTracks(t, log, calls[n]);
      } else {
        OtherKeyTracks(t, log, calls[n], key);
      }
    }
  }

  /**
   * Refinement: over every run with non-decreasing ledgers, each call is
   * accepted exactly when the log of the calls before it shows fewer than
   * max_calls accepted calls of the same key in the same window.
   */
  lemma {:induction false} RunRefinesLog(s: State, calls: seq<Call>, i: nat)
    requires Fresh(s) && NonDecreasing(calls) && i < |calls|
    ensures var log := Run(s, calls).1;
            |log| == |calls| && (log[i].accepted <==> Allowed(s, log[..i], calls[i]))
  {
    var n := |calls| - 1;
    RunTracks(s, calls, calls[i].key);
    assert Run(s, calls).1[..n] == Run(s, calls[..n]).1;
    if i == n {
      LastRefinesLog(s, calls);
    } else {
      RunRefinesLog(s, calls[..n], i);
      assert Run(s, calls).1[..i] == Run(s, calls[..n]).1[..i];
    }
  }

  lemma LastRefinesLog(s: State, calls: seq<Call>)
    requires Fresh(s) && NonDecreasing(calls) && calls != []
    ensures var n := |calls| - 1;
            var log := Run(s, calls[..n]).1;
            |Run(s, calls).1| == |calls| && (Run(s, calls).1[n].accepted <==> Allowed(s, log, calls[n]))
  {
    var n := |calls| - 1;
    RunTracks(s, calls[..n], calls[n].key);
    var (t, log) := Run(s, calls[..n]);
    StepTracks(t, log, calls[n]);
  }

  lemma {:induction false} CountSplit(log: seq<Logged>, key: Key, from: int, mid: int, to: int)
    requires from <= mid <= to
    ensures CountBetween(log, key, from, to) == CountBetween(log, key, from, mid) + CountBetween(log, key, mid, to)
  {
    if log != [] {
      CountSplit(log[..|log| - 1], key, from, mid, to);
    }
  }

  lemma {:induction false} CountWidens(log: seq<Logged>, key: Key, from: int, to: int, from': int, to': int)
    requires from' <= from && to <= to'
    ensures CountBetween(log, key, from, to) <= CountBetween(log, key, from', to')
  {
    if log != [] {
      CountWidens(log[..|log| - 1], key, from, to, from', to');
    }
  }

  /** Any span of window_ledgers consecutive ledgers holds at most twice max_calls accepted calls. */
  lemma SpanBound(s: State, calls: seq<Call>, key: Key, start: nat)
    requires Fresh(s) && NonDecreasing(calls) && ValidLimit(LimitFor(s, key.entrypoint))
    ensures var limit := LimitFor(s, key.entrypoint);
            CountBetween(Run(s, calls).1, key, start, start + limit.windowLedgers) <= 2 * limit.maxCalls
  {
    RunTracks(s, calls, key);
    var (t, log) := Run(s, calls);
    var width := LimitFor(s, key.entrypoint).windowLedgers;
    var w := start / width;
    TrackedWindow(t, log, key, w);
    TrackedWindow(t, log, key, w + 1);
    SpanInTwoWindows(log, key, start, width, w);
  }

  lemma TrackedWindow(s: State, log: seq<Logged>, key: Key, w: nat)
    requires Tracks(s, log, key) && ValidLimit(LimitFor(s, key.entrypoint))
    ensures CountWindow(log, key, LimitFor(s, key.entrypoint).windowLedgers, w) <= LimitFor(s, key.entrypoint).maxCalls
  {
  }

  lemma SpanInTwoWindows(log: seq<Logged>, key: Key, start: nat, width: nat, w: nat)
    requires width > 0 && w == start / width
    ensures CountBetween(log, key, start, start + width)
         <= CountWindow(log, key, width, w) + CountWindow(log, key, width, w + 1)
  {
    var lo := w * width;
    WindowOf(start, width, w);
    NextWindow(w, width);
    CountWidens(log, key, start, start + width, lo, lo + width + width);
    CountSplit(log, key, lo, lo + width, lo + width + width);
  }

  lemma NextWindow(w: int, width: int)
    ensures (w + 1) * width == w * width + width
  {
  }
}
