/** The last entry of a log that bears on a question. */
module History {
  import opened Results

  /** The last entry that satisfies `p`, if there is one. */
  function Last<E>(log: seq<E>, p: E -> bool): (r: Option<E>)
    ensures r.Some? ==> p(r.value) && r.value in log
  {
    if log == [] then None
    else if p(log[|log| - 1]) then Some(log[|log| - 1])
    else Last(log[..|log| - 1], p)
  }

  lemma LastSnoc<E>(log: seq<E>, e: E, p: E -> bool)
    ensures Last(log + [e], p) == if p(e) then Some(e) else Last(log, p)
  {
    assert (log + [e])[..|log|] == log;
  }

  /** Nothing after it satisfies `p`; and there is none only if nothing satisfies `p` at all. */
  lemma {:induction false} LastMeaning<E>(log: seq<E>, p: E -> bool)
    ensures Last(log, p).None? ==> forall i :: 0 <= i < |log| ==> !p(log[i])
    ensures Last(log, p).Some? ==>
              exists i :: 0 <= i < |log| && log[i] == Last(log, p).value && forall j :: i < j < |log| ==> !p(log[j])
  {
    if log != [] {
      var n := |log| - 1;
      if p(log[n]) {
        assert log[n] == Last(log, p).value;
      } else {
        LastMeaning(log[..n], p);
        if Last(log, p).Some? {
          var i :| 0 <= i < n && log[..n][i] == Last(log, p).value && forall j :: i < j < n ==> !p(log[..n][j]);
          assert log[i] == Last(log, p).value;
          assert forall j :: i < j < n ==> log[j] == log[..n][j];
        }
      }
    }
  }

  /** How many entries satisfy `p`. */
  function Count<E>(log: seq<E>, p: E -> bool): nat {
    if log == [] then 0 else Count(log[..|log| - 1], p) + if p(log[|log| - 1]) then 1 else 0
  }

  lemma CountSnoc<E>(log: seq<E>, e: E, p: E -> bool)
    ensures Count(log + [e], p) == Count(log, p) + if p(e) then 1 else 0
  {
    assert (log + [e])[..|log|] == log;
  }

  /** One entry satisfies `p` exactly when there is a last one that does. */
  lemma {:induction false} CountLast<E>(log: seq<E>, p: E -> bool)
    ensures Count(log, p) == 0 <==> Last(log, p).None?
  {
    if log != [] {
      CountLast(log[..|log| - 1], p);
    }
  }
}
