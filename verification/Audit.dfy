/**
 * The hash-chained audit log. The hash is a parameter; tamper evidence asks of
 * it only that it keeps apart the preimages of the records at hand and takes
 * none of them to the genesis digest.
 */
module Audit {
  import opened Bits
  import opened ByteStrings
  import opened Results

  type Hash = Bytes -> Bytes

  ghost predicate IsHash(h: Hash) {
    forall x :: |h(x)| == 32
  }

  const HASH_BYTES: nat := 32
  const GENESIS: Bytes := BigEndian(0, HASH_BYTES)
  const U32_MAX: int := 0xffff_ffff

  // Widths of the integer fields in the preimage.
  const U64_BYTES: nat := 8
  const U32_BYTES: nat := 4

  type u32 = x: int | 0 <= x <= U32_MAX

  datatype Record = Record(
    seqNo: u64,
    caller: u64,
    action: u32,
    payloadDigest: Bytes,
    ledger: u64,
    prev: Bytes,
    digest: Bytes)

  /** The fixed-width preimage: 8 + 8 + 4 + 32 + 8 + 32 bytes. */
  function Preimage(r: Record): Bytes {
    BigEndian(r.seqNo, U64_BYTES) + BigEndian(r.caller, U64_BYTES) + BigEndian(r.action, U32_BYTES) + r.payloadDigest
    + BigEndian(r.ledger, U64_BYTES) + r.prev
  }

  function ChainDigest(h: Hash, r: Record): Bytes {
    h(Preimage(r))
  }

  /** Digest fields are 32-byte arrays. */
  predicate WellFormed(r: Record) {
    |r.payloadDigest| == 32 && |r.prev| == 32 && |r.digest| == 32
  }

  lemma PreimageInjective(a: Record, b: Record)
    requires WellFormed(a) && WellFormed(b) && Preimage(a) == Preimage(b)
    ensures a == b.(digest := a.digest)
  {
    WordCapacities();
    SplitFields(BigEndian(a.seqNo, U64_BYTES), BigEndian(a.caller, U64_BYTES), BigEndian(a.action, U32_BYTES),
                a.payloadDigest, BigEndian(a.ledger, U64_BYTES), a.prev,
                BigEndian(b.seqNo, U64_BYTES), BigEndian(b.caller, U64_BYTES), BigEndian(b.action, U32_BYTES),
                b.payloadDigest, BigEndian(b.ledger, U64_BYTES), b.prev);
    FieldInjective(a.seqNo, b.seqNo, U64_BYTES);
    FieldInjective(a.caller, b.caller, U64_BYTES);
    FieldInjective(a.action, b.action, U32_BYTES);
    FieldInjective(a.ledger, b.ledger, U64_BYTES);
  }

  /** Where the fields stand, each integer big-endian. */
  lemma PreimageLayout(r: Record)
    requires WellFormed(r)
    ensures var p := Preimage(r);
            && |p| == 92
            && FromBigEndian(p[..8]) == r.seqNo && FromBigEndian(p[8..16]) == r.caller
            && FromBigEndian(p[16..20]) == r.action && p[20..52] == r.payloadDigest
            && FromBigEndian(p[52..60]) == r.ledger && p[60..] == r.prev
  {
    WordCapacities();
    BigEndianRoundTrip(r.seqNo, U64_BYTES);
    BigEndianRoundTrip(r.caller, U64_BYTES);
    BigEndianRoundTrip(r.action, U32_BYTES);
    BigEndianRoundTrip(r.ledger, U64_BYTES);
    var p := Preimage(r);
    assert p[..8] == BigEndian(r.seqNo, U64_BYTES) && p[8..16] == BigEndian(r.caller, U64_BYTES);
    assert p[16..20] == BigEndian(r.action, U32_BYTES) && p[20..52] == r.payloadDigest;
    assert p[52..60] == BigEndian(r.ledger, U64_BYTES) && p[60..] == r.prev;
  }

  lemma FieldInjective(m: nat, n: nat, width: nat)
    requires m < Capacity(width) && n < Capacity(width) && BigEndian(m, width) == BigEndian(n, width)
    ensures m == n
  {
    BigEndianRoundTrip(m, width);
    BigEndianRoundTrip(n, width);
  }

  lemma SplitFields(s: Bytes, c: Bytes, a: Bytes, p: Bytes, l: Bytes, q: Bytes,
                    s': Bytes, c': Bytes, a': Bytes, p': Bytes, l': Bytes, q': Bytes)
    requires |s| == |s'| && |c| == |c'| && |a| == |a'| && |p| == |p'| && |l| == |l'|
    requires s + c + a + p + l + q == s' + c' + a' + p' + l' + q'
    ensures s == s' && c == c' && a == a' && p == p' && l == l' && q == q'
  {
    ConcatSplit(s + c + a + p + l, q, s' + c' + a' + p' + l', q');
    ConcatSplit(s + c + a + p, l, s' + c' + a' + p', l');
    ConcatSplit(s + c + a, p, s' + c' + a', p');
    ConcatSplit(s + c, a, s' + c', a');
    ConcatSplit(s, c, s', c');
  }

  function Head(records: seq<Record>): Bytes {
    if records == [] then GENESIS else records[|records| - 1].digest
  }

  /** Record i sits at its own position, points at its predecessor and hashes to its digest. */
  predicate Linked(h: Hash, records: seq<Record>, i: nat)
    requires i < |records|
  {
    && records[i].seqNo == i
    && records[i].prev == Head(records[..i])
    && records[i].digest == ChainDigest(h, records[i])
  }

  predicate Verified(h: Hash, records: seq<Record>) {
    forall i :: 0 <= i < |records| ==> Linked(h, records, i)
  }

  method CheckLink(h: Hash, records: seq<Record>, index: nat, prev: Bytes) returns (ok: bool)
    requires index < |records| && prev == Head(records[..index])
    ensures ok <==> Linked(h, records, index)
  {
    var record := records[index];
    if record.seqNo != index || record.prev != prev {
      return false;
    }
    var expected := ChainDigest(h, record);
    return record.digest == expected;
  }

  ghost predicate LinkedUpTo(h: Hash, records: seq<Record>, n: nat) {
    n <= |records| && forall i :: 0 <= i < n ==> Linked(h, records, i)
  }

  lemma LinkOnward(h: Hash, records: seq<Record>, n: nat)
    requires LinkedUpTo(h, records, n) && n < |records| && Linked(h, records, n)
    ensures LinkedUpTo(h, records, n + 1)
  {
  }

  lemma HeadOfPrefix(records: seq<Record>, index: nat)
    requires index < |records|
    ensures Head(records[..index + 1]) == records[index].digest
  {
  }

  /** Reports the first record that breaks the chain. */
  method VerifyChain(h: Hash, records: seq<Record>) returns (r: Result<(), nat>)
    ensures r.Ok? <==> Verified(h, records)
    ensures r.Err? ==>
              && r.error < |records|
              && !Linked(h, records, r.error)
              && forall i :: 0 <= i < r.error ==> Linked(h, records, i)
  {
    var prev := GENESIS;
    for index := 0 to |records|
      invariant prev == Head(records[..index])
      invariant LinkedUpTo(h, records, index)
    {
      var linked := CheckLink(h, records, index, prev);
      if !linked {
        return Err(index);
      }
      prev := records[index].digest;
      HeadOfPrefix(records, index);
      LinkOnward(h, records, index);
    }
    return Ok(());
  }

  lemma VerifiedPrefix(h: Hash, records: seq<Record>, n: nat)
    requires Verified(h, records) && n <= |records|
    ensures Verified(h, records[..n])
  {
    forall i | 0 <= i < n
      ensures Linked(h, records[..n], i)
    {
      assert Linked(h, records, i);
      assert records[..n][..i] == records[..i];
    }
  }

  lemma VerifiedAreWellFormed(h: Hash, records: seq<Record>, i: nat)
    requires IsHash(h) && Verified(h, records) && i < |records| && |records[i].payloadDigest| == 32
    ensures WellFormed(records[i])
  {
    assert Linked(h, records, i);
    if i > 0 {
      assert Linked(h, records, i - 1);
    }
  }

  function Preimages(records: seq<Record>): (s: seq<Bytes>)
    ensures |s| == |records|
  {
    seq(|records|, i requires 0 <= i < |records| => Preimage(records[i]))
  }

  /** The hash never takes one of `xs` for a different one of `ys`. */
  ghost predicate Separates(h: Hash, xs: seq<Bytes>, ys: seq<Bytes>) {
    forall x, y :: x in xs && y in ys && h(x) == h(y) ==> x == y
  }

  /** No record hashes to the digest an empty log starts from. */
  predicate AvoidsGenesis(records: seq<Record>) {
    forall r :: r in records ==> r.digest != GENESIS
  }

  /** A chain whose digests are given by `d`, whatever `d` is. */
  predicate ChainBy(d: Record -> Bytes, records: seq<Record>) {
    forall i :: 0 <= i < |records| ==>
      records[i].seqNo == i && records[i].prev == Head(records[..i]) && records[i].digest == d(records[i])
  }

  /** A record with the genesis digest, or two different records with the same digest. */
  predicate Meet(d: Record -> Bytes, a: seq<Record>, b: seq<Record>, m: nat, n: nat) {
    || (m < |a| && d(a[m]) == GENESIS)
    || (n < |b| && d(b[n]) == GENESIS)
    || (m < |a| && n < |b| && d(a[m]) == d(b[n]) && a[m] != b[n])
  }

  lemma {:induction false} ChainsMeet(d: Record -> Bytes, a: seq<Record>, b: seq<Record>) returns (m: nat, n: nat)
    requires ChainBy(d, a) && ChainBy(d, b) && Head(a) == Head(b)
    ensures a == b || Meet(d, a, b, m, n)
    decreases |a|
  {
    m, n := if a == [] then 0 else |a| - 1, if b == [] then 0 else |b| - 1;
    if a != [] && b != [] && a[m] == b[n] {
      SameEnd(a, b);
      ChainPrefix(d, a, m);
      ChainPrefix(d, b, n);
      m, n := ChainsMeet(d, a[..m], b[..n]);
    }
  }

  lemma SameEnd(a: seq<Record>, b: seq<Record>)
    requires a != [] && b != [] && a[|a| - 1] == b[|b| - 1]
    ensures a[..|a| - 1] == b[..|b| - 1] ==> a == b
  {
    var m, n := |a| - 1, |b| - 1;
    assert a[..m] + [a[m]] == a && b[..n] + [b[n]] == b;
  }

  lemma ChainPrefix(d: Record -> Bytes, records: seq<Record>, n: nat)
    requires ChainBy(d, records) && n <= |records|
    ensures ChainBy(d, records[..n])
  {
    forall i | 0 <= i < n
      ensures records[..n][i] == records[i] && records[..n][..i] == records[..i]
    {
    }
  }

  function DigestBy(h: Hash): Record -> Bytes {
    r => ChainDigest(h, r)
  }

  lemma VerifiedIsChain(h: Hash, records: seq<Record>)
    requires Verified(h, records)
    ensures ChainBy(DigestBy(h), records)
  {
    forall i | 0 <= i < |records|
      ensures && records[i].seqNo == i && records[i].prev == Head(records[..i])
              && records[i].digest == DigestBy(h)(records[i])
    {
      assert Linked(h, records, i);
    }
  }

  /**
   * Tamper evidence: two chains that verify and end in the same digest are the
   * same record for record. So any edit, removal, insertion or reordering of a
   * verified chain either stops it verifying or changes its head.
   */
  lemma HeadDeterminesChain(h: Hash, a: seq<Record>, b: seq<Record>)
    requires IsHash(h) && Verified(h, a) && Verified(h, b) && Head(a) == Head(b)
    requires forall r :: r in a || r in b ==> |r.payloadDigest| == 32
    requires Separates(h, Preimages(a), Preimages(b)) && AvoidsGenesis(a) && AvoidsGenesis(b)
    ensures a == b
  {
    VerifiedIsChain(h, a);
    VerifiedIsChain(h, b);
    var m, n := ChainsMeet(DigestBy(h), a, b);
    if m < |a| {
      assert Linked(h, a, m) && a[m] in a;
    }
    if n < |b| {
      assert Linked(h, b, n) && b[n] in b;
    }
    if m < |a| && n < |b| {
      assert Preimages(a)[m] == Preimage(a[m]) && Preimages(b)[n] == Preimage(b[n]);
      SamePreimage(h, a, b, m, n);
    }
  }

  /** In verified chains, records with the same preimage and digest are the same record. */
  lemma SamePreimage(h: Hash, a: seq<Record>, b: seq<Record>, m: nat, n: nat)
    requires IsHash(h) && Verified(h, a) && Verified(h, b) && m < |a| && n < |b|
    requires |a[m].payloadDigest| == 32 && |b[n].payloadDigest| == 32
    ensures Preimage(a[m]) == Preimage(b[n]) ==> a[m] == b[n]
  {
    VerifiedAreWellFormed(h, a, m);
    VerifiedAreWellFormed(h, b, n);
    if Preimage(a[m]) == Preimage(b[n]) {
      PreimageInjective(a[m], b[n]);
      assert Linked(h, a, m) && Linked(h, b, n);
    }
  }

  /** Dropping the newest records of a verified log moves its head. */
  lemma TruncationMovesHead(h: Hash, records: seq<Record>, n: nat)
    requires IsHash(h) && Verified(h, records) && n < |records|
    requires forall r :: r in records ==> |r.payloadDigest| == 32
    requires Separates(h, Preimages(records), Preimages(records)) && AvoidsGenesis(records)
    ensures Head(records[..n]) != Head(records)
  {
    VerifiedPrefix(h, records, n);
    assert Preimages(records[..n]) == Preimages(records)[..n];
    if Head(records[..n]) == Head(records) {
      HeadDeterminesChain(h, records[..n], records);
    }
  }

  class AuditLog {
    const h: Hash
    var records: seq<Record>

    /** A vector never outgrows the address space. */
    ghost predicate Valid()
      reads this
    {
      && IsHash(h) && Verified(h, records)
      && |records| <= U64_MAX
      && forall i :: 0 <= i < |records| ==> WellFormed(records[i])
    }

    constructor (h: Hash)
      requires IsHash(h)
      ensures Valid() && this.h == h && records == []
    {
      this.h := h;
      records := [];
    }

    function HeadDigest(): Bytes
      reads this
    {
      if records == [] then GENESIS else records[|records| - 1].digest
    }

    function Get(seqNo: nat): Option<Record>
      reads this
    {
      if seqNo < |records| then Some(records[seqNo]) else None
    }

    /** Appends one record; everything before it stays as it was and the log still verifies. */
    method Append(caller: u64, action: u32, payload: Bytes, ledger: u64) returns (seqNo: u64)
      requires Valid() && |records| < U64_MAX
      modifies this
      ensures Valid() && seqNo == |old(records)|
      ensures |records| == seqNo + 1 && records[..seqNo] == old(records)
      ensures records[seqNo].caller == caller && records[seqNo].action == action && records[seqNo].ledger == ledger
      ensures records[seqNo].payloadDigest == h(payload)
      ensures records[seqNo].prev == old(HeadDigest()) && HeadDigest() == ChainDigest(h, records[seqNo])
    {
      seqNo := |records|;
      var prev := HeadDigest();
      var record := Record(seqNo, caller, action, h(payload), ledger, prev, []);
      record := record.(digest := ChainDigest(h, record));
      ghost var before := records;
      records := records + [record];
      forall i | 0 <= i < |records|
        ensures Linked(h, records, i)
      {
        if i < |before| {
          assert Linked(h, before, i);
          assert records[..i] == before[..i];
        } else {
          assert records[..i] == before;
        }
      }
    }
  }
}
