/**
 * Sorted-pair Merkle trees for disbursement batches. The hash is a parameter;
 * nothing is assumed of it beyond 32-byte digests. Statements that need
 * collision resistance ask for it on the finitely many strings actually hashed:
 * those of the proof check against those of the tree.
 */
module Merkle {
  import opened Bits
  import opened ByteStrings
  import opened Results
  import opened Sums
  import Strkey

  type Hash = Bytes -> Bytes

  ghost predicate IsHash(h: Hash) {
    forall x :: |h(x)| == 32
  }

  // ---------------------------------------------------------------------
  // Encodings
  // ---------------------------------------------------------------------

  /** The XDR of an address value, or None for a malformed or unsupported key. */
  function AddressXdr(key: Bytes): Option<Bytes> {
    match Strkey.Decode(key)
    case None => None
    case Some((version, payload)) =>
      if version == Strkey.VERSION_ACCOUNT then Some(BigEndian(18, 4) + BigEndian(0, 4) + BigEndian(0, 4) + payload)
      else if version == Strkey.VERSION_CONTRACT then Some(BigEndian(18, 4) + BigEndian(1, 4) + payload)
      else None
  }

  /** Address encodings are self-delimiting. */
  lemma AddressXdrPrefix(a: Bytes, b: Bytes, s: Bytes, t: Bytes)
    requires AddressXdr(a).Some? && AddressXdr(b).Some?
    requires AddressXdr(a).value + s == AddressXdr(b).value + t
    ensures a == b && s == t
  {
    var x, y := AddressXdr(a).value, AddressXdr(b).value;
    Strkey.EncodeDecode(a);
    Strkey.EncodeDecode(b);
    var pa, pb := Strkey.Decode(a).value.1, Strkey.Decode(b).value.1;
    AddressXdrShape(a);
    AddressXdrShape(b);
    assert (x + s)[7] == x[7] && (y + t)[7] == y[7];
    assert |x| == |y|;
    assert x == (x + s)[..|x|] == (y + t)[..|y|] == y;
    assert s == (x + s)[|x|..] == (y + t)[|y|..] == t;
    assert pa == x[|x| - 32..] && pb == y[|y| - 32..];
  }

  lemma AddressXdrShape(a: Bytes)
    requires AddressXdr(a).Some?
    ensures var x := AddressXdr(a).value;
            && |x| >= 40
            && (x[7] == 0 ==> |x| == 44 && Strkey.Decode(a).value.0 == Strkey.VERSION_ACCOUNT)
            && (x[7] != 0 ==> |x| == 40 && Strkey.Decode(a).value.0 == Strkey.VERSION_CONTRACT)
            && x[|x| - 32..] == Strkey.Decode(a).value.1
  {
    Strkey.EncodeDecode(a);
    LowByte(0);
    LowByte(1);
  }

  lemma LowByte(n: nat)
    requires n < 256
    ensures BigEndian(n, 4)[3] == n
  {
  }

  datatype Entry = Entry(recipient: Bytes, amount: int, salt: Bytes)

  /** The tagged leaf preimage, or None where the tool raises. */
  function LeafPreimage(asset: Bytes, e: Entry): Option<Bytes> {
    if !FitsI128(e.amount) || |e.salt| != 32 then None
    else
      var r, a := AddressXdr(e.recipient), AddressXdr(asset);
      if r.None? || a.None? then None
      else
        Some([0] + r.value + a.value + SignedBigEndian(e.amount, 16) + e.salt)
  }

  function LeafHash(h: Hash, asset: Bytes, e: Entry): Option<Bytes> {
    match LeafPreimage(asset, e)
    case None => None
    case Some(p) => Some(h(p))
  }

  /** A leaf preimage determines every field that went into it. */
  lemma LeafPreimageInjective(asset: Bytes, e: Entry, asset': Bytes, e': Entry)
    requires LeafPreimage(asset, e).Some? && LeafPreimage(asset, e) == LeafPreimage(asset', e')
    ensures asset == asset' && e == e'
  {
    var r, a := AddressXdr(e.recipient).value, AddressXdr(asset).value;
    var r', a' := AddressXdr(e'.recipient).value, AddressXdr(asset').value;
    var m, m' := SignedBigEndian(e.amount, 16), SignedBigEndian(e'.amount, 16);
    NestTail(r, a, m, e.salt);
    NestTail(r', a', m', e'.salt);
    ConcatSplit([0], r + (a + (m + e.salt)), [0], r' + (a' + (m' + e'.salt)));
    AddressXdrPrefix(e.recipient, e'.recipient, a + (m + e.salt), a' + (m' + e'.salt));
    AddressXdrPrefix(asset, asset', m + e.salt, m' + e'.salt);
    ConcatSplit(m, e.salt, m', e'.salt);
    WordCapacities();
    SignedRoundTrip(e.amount, 16);
    SignedRoundTrip(e'.amount, 16);
  }

  /** Where the fields stand: tag, recipient, asset, signed big-endian amount, salt. */
  lemma LeafPreimageLayout(asset: Bytes, e: Entry)
    requires LeafPreimage(asset, e).Some?
    ensures AddressXdr(e.recipient).Some? && AddressXdr(asset).Some?
    ensures var p, r, a := LeafPreimage(asset, e).value, AddressXdr(e.recipient).value, AddressXdr(asset).value;
            && |p| == 1 + |r| + |a| + 16 + 32 && p[0] == 0
            && p[1..1 + |r|] == r && p[1 + |r|..1 + |r| + |a|] == a
            && FromSignedBigEndian(p[1 + |r| + |a|..|p| - 32]) == e.amount && p[|p| - 32..] == e.salt
  {
    WordCapacities();
    SignedRoundTrip(e.amount, 16);
    var p, r, a := LeafPreimage(asset, e).value, AddressXdr(e.recipient).value, AddressXdr(asset).value;
    var m := SignedBigEndian(e.amount, 16);
    assert p == [0] + r + a + m + e.salt;
    assert p[1..1 + |r|] == r && p[1 + |r|..1 + |r| + |a|] == a;
    assert p[1 + |r| + |a|..|p| - 32] == m;
  }

  lemma NestTail(r: Bytes, a: Bytes, m: Bytes, s: Bytes)
    ensures [0] + r + a + m + s == [0] + (r + (a + (m + s)))
  {
  }

  /** The pair is ordered before hashing, so a proof need not say which side it is on. */
  function NodePreimage(a: Bytes, b: Bytes): Bytes {
    if LexLe(a, b) then [1] + a + b else [1] + b + a
  }

  function NodeHash(h: Hash, a: Bytes, b: Bytes): Bytes {
    h(NodePreimage(a, b))
  }

  lemma NodeHashSymmetric(h: Hash, a: Bytes, b: Bytes)
    ensures NodeHash(h, a, b) == NodeHash(h, b, a)
  {
    LexTotal(a, b);
  }

  /** The node tag, then the smaller digest, then the larger. */
  lemma NodePreimageSorted(a: Bytes, b: Bytes)
    requires |a| == |b| == 32
    ensures var p := NodePreimage(a, b);
            |p| == 65 && p[0] == 1 && LexLe(p[1..33], p[33..]) && {p[1..33], p[33..]} == {a, b}
  {
    LexTotal(a, b);
    var p := NodePreimage(a, b);
    var lo, hi := if LexLe(a, b) then a else b, if LexLe(a, b) then b else a;
    assert p == [1] + lo + hi;
    assert p[1..33] == lo && p[33..] == hi;
  }

  /** A node preimage determines the unordered pair of its children. */
  lemma NodePreimageInjective(a: Bytes, b: Bytes, c: Bytes, d: Bytes)
    requires |a| == |b| == |c| == 32 && NodePreimage(a, b) == NodePreimage(c, d)
    ensures (a == c && b == d) || (a == d && b == c)
  {
    var p, q := NodePreimage(a, b), NodePreimage(c, d);
    assert |d| == 32;
    assert p[1..33] == q[1..33] && p[33..] == q[33..];
  }

  // ---------------------------------------------------------------------
  // The tree
  // ---------------------------------------------------------------------

  /** Adjacent pairs are hashed; an odd last node is carried up unchanged. */
  function NextLevel(h: Hash, cur: seq<Bytes>): (n: seq<Bytes>)
    ensures |n| == (|cur| + 1) / 2
  {
    seq((|cur| + 1) / 2, i requires 0 <= i < (|cur| + 1) / 2 =>
      if 2 * i + 1 < |cur| then NodeHash(h, cur[2 * i], cur[2 * i + 1]) else cur[2 * i])
  }

  function Levels(h: Hash, cur: seq<Bytes>): (ls: seq<seq<Bytes>>)
    requires cur != []
    ensures ls != [] && ls[0] == cur
    ensures |ls[|ls| - 1]| == 1
    decreases |cur|
  {
    if |cur| == 1 then [cur] else [cur] + Levels(h, NextLevel(h, cur))
  }

  lemma LevelsStep(h: Hash, cur: seq<Bytes>)
    requires |cur| > 1
    ensures Levels(h, cur) == [cur] + Levels(h, NextLevel(h, cur))
    ensures Levels(h, cur)[1..] == Levels(h, NextLevel(h, cur))
  {
  }

  function Top(h: Hash, cur: seq<Bytes>): Bytes
    requires cur != []
    decreases |cur|
  {
    if |cur| == 1 then cur[0] else Top(h, NextLevel(h, cur))
  }

  function Root(h: Hash, leaves: seq<Bytes>): Bytes
    requires leaves != []
  {
    Top(h, Sorted(leaves))
  }

  lemma {:induction false} TopIsLast(h: Hash, cur: seq<Bytes>)
    requires cur != []
    ensures var ls := Levels(h, cur); ls[|ls| - 1][0] == Top(h, cur)
    decreases |cur|
  {
    if |cur| > 1 {
      TopIsLast(h, NextLevel(h, cur));
    }
  }

  method PairUp(h: Hash, cur: seq<Bytes>) returns (nxt: seq<Bytes>)
    ensures nxt == NextLevel(h, cur)
  {
    nxt := [];
    var i := 0;
    while i < |cur| - 1
      invariant 0 <= i <= |cur| && i % 2 == 0
      invariant nxt == NextLevel(h, cur)[..i / 2]
    {
      nxt := nxt + [NodeHash(h, cur[i], cur[i + 1])];
      i := i + 2;
    }
    if |cur| % 2 == 1 {
      nxt := nxt + [cur[|cur| - 1]];
    }
  }

  /** Levels of the tree, leaves first (sorted), root last; None for an empty batch. */
  method BuildTree(h: Hash, leaves: seq<Bytes>) returns (r: Option<seq<seq<Bytes>>>)
    ensures r.None? <==> leaves == []
    ensures r.Some? ==>
              && r.value == Levels(h, Sorted(leaves))
              && r.value != [] && r.value[|r.value| - 1] == [Root(h, leaves)]
              && |leaves| <= Pow2(|r.value| - 1)
              && (|r.value| > 1 ==> Pow2(|r.value| - 2) < |leaves|)
  {
    if leaves == [] {
      return None;
    }
    var levels := Grow(h, Sorted(leaves));
    TopIsLast(h, Sorted(leaves));
    DepthIsLogarithmic(h, Sorted(leaves));
    return Some(levels);
  }

  method Grow(h: Hash, start: seq<Bytes>) returns (levels: seq<seq<Bytes>>)
    requires start != []
    ensures levels == Levels(h, start)
  {
    levels := [];
    var cur := start;
    while |cur| > 1
      invariant |cur| >= 1
      invariant Levels(h, start) == levels + Levels(h, cur)
      decreases |cur|
    {
      LevelsStep(h, cur);
      var nxt := PairUp(h, cur);
      levels := levels + [cur];
      cur := nxt;
    }
    levels := levels + [cur];
  }

  /** Order of the input does not matter: the root is a function of the set of leaves. */
  lemma RootOrderIndependent(h: Hash, s: seq<Bytes>, t: seq<Bytes>)
    requires s != [] && t != [] && multiset(s) == multiset(t)
    ensures Root(h, s) == Root(h, t)
  {
    SortedUnique(Sorted(s), Sorted(t));
  }

  /** The tree is as flat as possible: 2^(depth-1) < leaves <= 2^depth. */
  lemma {:induction false} DepthIsLogarithmic(h: Hash, cur: seq<Bytes>)
    requires cur != []
    ensures var depth := |Levels(h, cur)| - 1;
            |cur| <= Pow2(depth) && (depth > 0 ==> Pow2(depth - 1) < |cur|)
    decreases |cur|
  {
    if |cur| > 1 {
      LevelsStep(h, cur);
      DepthIsLogarithmic(h, NextLevel(h, cur));
    }
  }

  // ---------------------------------------------------------------------
  // Proofs
  // ---------------------------------------------------------------------

  /** Sibling position: `idx ^ 1`. */
  function Sibling(idx: nat): nat {
    Xor(idx, 1)
  }

  lemma SiblingIsNeighbour(idx: nat)
    ensures Sibling(idx) == if idx % 2 == 0 then idx + 1 else idx - 1
  {
    XorParts(idx, 1);
  }

  function ProofAt(levels: seq<seq<Bytes>>, idx: nat): seq<Bytes> {
    if |levels| <= 1 then []
    else
      var sibling := Sibling(idx);
      (if sibling < |levels[0]| then [levels[0][sibling]] else []) + ProofAt(levels[1..], idx / 2)
  }

  method ProofFor(levels: seq<seq<Bytes>>, leaf: Bytes) returns (r: Option<seq<Bytes>>)
    requires levels != []
    ensures r.Some? <==> leaf in levels[0]
    ensures r.Some? ==> exists i :: 0 <= i < |levels[0]| && levels[0][i] == leaf && r.value == ProofAt(levels, i)
  {
    var first: nat := 0;
    while first < |levels[0]| && levels[0][first] != leaf
      invariant first <= |levels[0]| && leaf !in levels[0][..first]
    {
      first := first + 1;
    }
    if first == |levels[0]| {
      return None;
    }
    var idx: nat := first;
    var proof := [];
    assert levels[0..] == levels;
    for k := 0 to |levels| - 1
      invariant proof + ProofAt(levels[k..], idx) == ProofAt(levels, first)
    {
      var sibling := Sibling(idx);
      assert levels[k..][1..] == levels[k + 1..];
      if sibling < |levels[k]| {
        proof := proof + [levels[k][sibling]];
      }
      idx := idx / 2;
    }
    return Some(proof);
  }

  /** Hashes a digest up a list of siblings. */
  function Climb(h: Hash, d: Bytes, proof: seq<Bytes>): Bytes
    decreases |proof|
  {
    if proof == [] then d else Climb(h, NodeHash(h, d, proof[0]), proof[1..])
  }

  method VerifyProof(h: Hash, root: Bytes, leaf: Bytes, proof: seq<Bytes>) returns (ok: bool)
    ensures ok <==> Climb(h, leaf, proof) == root
  {
    var cur := leaf;
    for i := 0 to |proof|
      invariant Climb(h, leaf, proof) == Climb(h, cur, proof[i..])
    {
      assert proof[i..][1..] == proof[i + 1..];
      cur := NodeHash(h, cur, proof[i]);
    }
    return cur == root;
  }

  /** Completeness: the sibling path from any position of any level leads to the root. */
  lemma {:induction false} ProofReachesTop(h: Hash, cur: seq<Bytes>, idx: nat)
    requires idx < |cur|
    ensures Climb(h, cur[idx], ProofAt(Levels(h, cur), idx)) == Top(h, cur)
    ensures |ProofAt(Levels(h, cur), idx)| <= |Levels(h, cur)| - 1
    decreases |cur|
  {
    if |cur| > 1 {
      var next := NextLevel(h, cur);
      LevelsStep(h, cur);
      SiblingIsNeighbour(idx);
      ProofReachesTop(h, next, idx / 2);
      ClimbOneLevel(h, cur, idx, ProofAt(Levels(h, next), idx / 2));
    }
  }

  lemma ClimbOneLevel(h: Hash, cur: seq<Bytes>, idx: nat, rest: seq<Bytes>)
    requires |cur| > 1 && idx < |cur|
    ensures var step := if Sibling(idx) < |cur| then [cur[Sibling(idx)]] else [];
            Climb(h, cur[idx], step + rest) == Climb(h, NextLevel(h, cur)[idx / 2], rest)
  {
    SiblingIsNeighbour(idx);
    var sibling := Sibling(idx);
    if sibling < |cur| {
      NodeHashSymmetric(h, cur[idx], cur[sibling]);
      assert ([cur[sibling]] + rest)[1..] == rest;
    } else {
      assert [] + rest == rest;
    }
  }

  // ---------------------------------------------------------------------
  // Soundness
  // ---------------------------------------------------------------------

  /** Every digest that occurs somewhere in the tree. */
  ghost predicate InTree(h: Hash, cur: seq<Bytes>, d: Bytes)
    requires cur != []
    decreases |cur|
  {
    d in cur || (|cur| > 1 && InTree(h, NextLevel(h, cur), d))
  }

  /** What is hashed to go from one level to the next. */
  function PairInputs(cur: seq<Bytes>): (s: seq<Bytes>)
    ensures |s| == |cur| / 2
  {
    seq(|cur| / 2, i requires 0 <= i < |cur| / 2 => NodePreimage(cur[2 * i], cur[2 * i + 1]))
  }

  /** Everything hashed to build the tree above a level. */
  function NodeInputs(h: Hash, cur: seq<Bytes>): seq<Bytes>
    requires cur != []
    decreases |cur|
  {
    if |cur| == 1 then [] else PairInputs(cur) + NodeInputs(h, NextLevel(h, cur))
  }

  function LeafDigests(h: Hash, preimages: seq<Bytes>): (s: seq<Bytes>)
    ensures |s| == |preimages|
  {
    seq(|preimages|, i requires 0 <= i < |preimages| => h(preimages[i]))
  }

  /** Everything hashed to build a tree: the leaf preimages, then a preimage per inner node. */
  function BuildInputs(h: Hash, preimages: seq<Bytes>): seq<Bytes>
    requires preimages != []
  {
    preimages + NodeInputs(h, Sorted(LeafDigests(h, preimages)))
  }

  /** Everything hashed to check a proof for digest `d`. */
  function ClimbInputs(h: Hash, d: Bytes, proof: seq<Bytes>): (s: seq<Bytes>)
    ensures |s| == |proof|
    decreases |proof|
  {
    if proof == [] then []
    else [NodePreimage(d, proof[0])] + ClimbInputs(h, NodeHash(h, d, proof[0]), proof[1..])
  }

  /** The hash never takes one of `xs` for a different one of `ys`. */
  ghost predicate Separates(h: Hash, xs: seq<Bytes>, ys: seq<Bytes>) {
    forall x, y :: x in xs && y in ys && h(x) == h(y) ==> x == y
  }

  /** Leaf preimages carry the leaf tag. */
  predicate Tagged(preimages: seq<Bytes>) {
    forall k :: 0 <= k < |preimages| ==> preimages[k] != [] && preimages[k][0] == 0
  }

  ghost predicate HasChildren(h: Hash, cur: seq<Bytes>, d: Bytes, a: Bytes, b: Bytes)
    requires cur != []
  {
    && InTree(h, cur, a) && InTree(h, cur, b) && |a| == |b| == 32
    && d == NodeHash(h, a, b) && NodePreimage(a, b) in NodeInputs(h, cur)
  }

  ghost predicate AllDigests(cur: seq<Bytes>) {
    forall i :: 0 <= i < |cur| ==> |cur[i]| == 32
  }

  lemma PairHasChildren(h: Hash, cur: seq<Bytes>, i: nat)
    requires |cur| > 1 && 2 * i + 1 < |cur| && AllDigests(cur)
    ensures HasChildren(h, cur, NodeHash(h, cur[2 * i], cur[2 * i + 1]), cur[2 * i], cur[2 * i + 1])
  {
    var a, b := cur[2 * i], cur[2 * i + 1];
    assert InTree(h, cur, a) && InTree(h, cur, b);
    assert NodePreimage(a, b) in NodeInputs(h, cur) by {
      var pairs, above := PairInputs(cur), NodeInputs(h, NextLevel(h, cur));
      assert pairs[i] == NodePreimage(a, b);
      assert (pairs + above)[i] == pairs[i];
    }
  }

  /** Made by hashing two digests of the tree. */
  ghost predicate IsNode(h: Hash, cur: seq<Bytes>, d: Bytes)
    requires cur != []
  {
    exists a, b :: HasChildren(h, cur, d, a, b)
  }

  lemma NextLevelNode(h: Hash, cur: seq<Bytes>, d: Bytes)
    requires |cur| > 1 && AllDigests(cur) && d in NextLevel(h, cur) && d !in cur
    ensures IsNode(h, cur, d)
  {
    var next := NextLevel(h, cur);
    var i :| 0 <= i < |next| && next[i] == d;
    assert 2 * i + 1 < |cur|;
    PairHasChildren(h, cur, i);
    assert HasChildren(h, cur, d, cur[2 * i], cur[2 * i + 1]);
  }

  lemma HigherNode(h: Hash, cur: seq<Bytes>, d: Bytes)
    requires |cur| > 1 && IsNode(h, NextLevel(h, cur), d)
    ensures IsNode(h, cur, d)
  {
    var a, b :| HasChildren(h, NextLevel(h, cur), d, a, b);
    assert HasChildren(h, cur, d, a, b);
  }

  lemma NextLevelDigests(h: Hash, cur: seq<Bytes>)
    requires IsHash(h) && AllDigests(cur)
    ensures AllDigests(NextLevel(h, cur))
  {
  }

  /** A digest in the tree is a leaf of it, or was made by hashing two digests in it. */
  lemma {:induction false} LeafOrNode(h: Hash, cur: seq<Bytes>, d: Bytes)
    requires IsHash(h) && cur != [] && AllDigests(cur) && InTree(h, cur, d)
    ensures d in cur || IsNode(h, cur, d)
    decreases |cur|
  {
    if d !in cur {
      var next := NextLevel(h, cur);
      if d in next {
        NextLevelNode(h, cur, d);
      } else {
        NextLevelDigests(h, cur);
        LeafOrNode(h, next, d);
        HigherNode(h, cur, d);
      }
    }
  }

  /** The bottom level of the tree over these leaf preimages. */
  function Bottom(h: Hash, preimages: seq<Bytes>): (cur: seq<Bytes>)
    ensures |cur| == |preimages|
  {
    Sorted(LeafDigests(h, preimages))
  }

  lemma BottomComesFrom(h: Hash, preimages: seq<Bytes>, d: Bytes)
    ensures d in Bottom(h, preimages) <==> exists k :: 0 <= k < |preimages| && h(preimages[k]) == d
  {
    var ds := LeafDigests(h, preimages);
    SortedSameElements(ds, d);
    if k :| 0 <= k < |preimages| && h(preimages[k]) == d {
      assert ds[k] == d;
    }
  }

  lemma BottomIsDigests(h: Hash, preimages: seq<Bytes>)
    requires IsHash(h)
    ensures AllDigests(Bottom(h, preimages))
  {
    var cur := Bottom(h, preimages);
    forall i | 0 <= i < |cur|
      ensures |cur[i]| == 32
    {
      BottomComesFrom(h, preimages, cur[i]);
    }
  }

  /** A string with the node tag is never taken for a leaf preimage. */
  lemma NodeIsNoLeaf(h: Hash, preimages: seq<Bytes>, x: Bytes)
    requires preimages != [] && Tagged(preimages) && x != [] && x[0] == 1
    requires Separates(h, [x], BuildInputs(h, preimages))
    ensures h(x) !in Bottom(h, preimages)
  {
    assert x in [x];
    BottomComesFrom(h, preimages, h(x));
    forall k | 0 <= k < |preimages|
      ensures h(preimages[k]) != h(x)
    {
      assert preimages[k] in BuildInputs(h, preimages);
    }
  }

  /** A string with the leaf tag is never taken for a node preimage. */
  lemma LeafIsNoNode(h: Hash, preimages: seq<Bytes>, x: Bytes, a: Bytes, b: Bytes)
    requires preimages != [] && x != [] && x[0] == 0
    requires Separates(h, [x], BuildInputs(h, preimages))
    ensures !HasChildren(h, Bottom(h, preimages), h(x), a, b)
  {
    assert x in [x];
    if NodePreimage(a, b) in NodeInputs(h, Bottom(h, preimages)) {
      assert NodePreimage(a, b) in BuildInputs(h, preimages);
    }
  }

  /** If the parent of `d` and a sibling is in the tree, so is `d`. */
  lemma ParentInTree(h: Hash, preimages: seq<Bytes>, d: Bytes, sibling: Bytes)
    requires IsHash(h) && preimages != [] && Tagged(preimages) && |d| == 32
    requires Separates(h, [NodePreimage(d, sibling)], BuildInputs(h, preimages))
    requires InTree(h, Bottom(h, preimages), NodeHash(h, d, sibling))
    ensures InTree(h, Bottom(h, preimages), d)
  {
    var cur, parent, x := Bottom(h, preimages), NodeHash(h, d, sibling), NodePreimage(d, sibling);
    assert x in [x];
    BottomIsDigests(h, preimages);
    NodeIsNoLeaf(h, preimages, x);
    LeafOrNode(h, cur, parent);
    var a, b :| HasChildren(h, cur, parent, a, b);
    assert NodePreimage(a, b) in BuildInputs(h, preimages);
    NodePreimageInjective(a, b, d, sibling);
  }

  lemma {:induction false} ClimbSnoc(h: Hash, d: Bytes, proof: seq<Bytes>)
    requires proof != []
    ensures var before := Climb(h, d, proof[..|proof| - 1]);
            && Climb(h, d, proof) == NodeHash(h, before, proof[|proof| - 1])
            && ClimbInputs(h, d, proof)
               == ClimbInputs(h, d, proof[..|proof| - 1]) + [NodePreimage(before, proof[|proof| - 1])]
    decreases |proof|
  {
    var n := |proof| - 1;
    if n > 0 {
      ClimbSnoc(h, NodeHash(h, d, proof[0]), proof[1..]);
      assert proof[1..][..n - 1] == proof[..n][1..];
    } else {
      assert Climb(h, NodeHash(h, d, proof[0]), proof[1..]) == NodeHash(h, d, proof[0]);
    }
  }

  lemma {:induction false} ClimbIsDigest(h: Hash, d: Bytes, proof: seq<Bytes>)
    requires IsHash(h) && |d| == 32
    ensures |Climb(h, d, proof)| == 32
    decreases |proof|
  {
    if proof != [] {
      ClimbIsDigest(h, NodeHash(h, d, proof[0]), proof[1..]);
    }
  }

  /** Whatever climbs into the tree started in the tree, however long the proof. */
  lemma {:induction false} ClimbStartsInTree(h: Hash, preimages: seq<Bytes>, d: Bytes, proof: seq<Bytes>)
    requires IsHash(h) && preimages != [] && Tagged(preimages) && |d| == 32
    requires Separates(h, ClimbInputs(h, d, proof), BuildInputs(h, preimages))
    requires InTree(h, Bottom(h, preimages), Climb(h, d, proof))
    ensures InTree(h, Bottom(h, preimages), d)
    decreases |proof|
  {
    if proof != [] {
      var n := |proof| - 1;
      var before := Climb(h, d, proof[..n]);
      ClimbSnoc(h, d, proof);
      ClimbIsDigest(h, d, proof[..n]);
      ParentInTree(h, preimages, before, proof[n]);
      ClimbStartsInTree(h, preimages, d, proof[..n]);
    }
  }

  lemma {:induction false} TopInTree(h: Hash, cur: seq<Bytes>)
    requires cur != []
    ensures InTree(h, cur, Top(h, cur))
    decreases |cur|
  {
    if |cur| > 1 {
      TopInTree(h, NextLevel(h, cur));
    }
  }

  lemma {:induction false} EveryNodeHasProof(h: Hash, cur: seq<Bytes>, d: Bytes) returns (proof: seq<Bytes>)
    requires cur != [] && InTree(h, cur, d)
    ensures Climb(h, d, proof) == Top(h, cur)
    decreases |cur|
  {
    if d in cur {
      var i :| 0 <= i < |cur| && cur[i] == d;
      ProofReachesTop(h, cur, i);
      proof := ProofAt(Levels(h, cur), i);
    } else {
      proof := EveryNodeHasProof(h, NextLevel(h, cur), d);
    }
  }

  lemma SortedSameElements(s: seq<Bytes>, d: Bytes)
    ensures d in Sorted(s) <==> d in s
  {
    assert d in Sorted(s) <==> d in multiset(Sorted(s));
    assert d in s <==> d in multiset(s);
  }

  /**
   * Exactly what verification accepts: a digest outside the tree is refused
   * with any proof whose hashes the hash keeps apart from those of the tree,
   * and a digest in the tree has a proof. Inner nodes are accepted too, which
   * is why leaves carry their own tag.
   */
  lemma AcceptedExactlyTreeNodes(h: Hash, preimages: seq<Bytes>, d: Bytes, proof: seq<Bytes>) returns (accepted: seq<Bytes>)
    requires IsHash(h) && preimages != [] && Tagged(preimages) && |d| == 32
    requires Separates(h, ClimbInputs(h, d, proof), BuildInputs(h, preimages))
    ensures Climb(h, d, proof) == Root(h, LeafDigests(h, preimages)) ==> InTree(h, Bottom(h, preimages), d)
    ensures InTree(h, Bottom(h, preimages), d) ==> Climb(h, d, accepted) == Root(h, LeafDigests(h, preimages))
  {
    accepted := [];
    var cur := Bottom(h, preimages);
    TopInTree(h, cur);
    if Climb(h, d, proof) == Root(h, LeafDigests(h, preimages)) {
      ClimbStartsInTree(h, preimages, d, proof);
    }
    if InTree(h, cur, d) {
      accepted := EveryNodeHasProof(h, cur, d);
    }
  }

  /**
   * Soundness: a tagged preimage accepted under a root is one of the preimages
   * the root was built from, unless one of the strings hashed to check it
   * collides with a different one hashed to build the tree.
   */
  lemma MerkleSoundness(h: Hash, preimages: seq<Bytes>, p: Bytes, proof: seq<Bytes>)
    requires IsHash(h) && preimages != [] && Tagged(preimages + [p])
    requires Separates(h, [p] + ClimbInputs(h, h(p), proof), BuildInputs(h, preimages))
    requires Climb(h, h(p), proof) == Root(h, LeafDigests(h, preimages))
    ensures p in preimages
  {
    var cur, checks := Bottom(h, preimages), [p] + ClimbInputs(h, h(p), proof);
    assert (preimages + [p])[|preimages|] == p && forall k :: 0 <= k < |preimages| ==> (preimages + [p])[k] == preimages[k];
    assert p == checks[0] && forall x :: x in ClimbInputs(h, h(p), proof) ==> x in checks;
    var _ := AcceptedExactlyTreeNodes(h, preimages, h(p), proof);
    BottomIsDigests(h, preimages);
    LeafOrNode(h, cur, h(p));
    forall a, b
      ensures !HasChildren(h, cur, h(p), a, b)
    {
      LeafIsNoNode(h, preimages, p, a, b);
    }
    BottomComesFrom(h, preimages, h(p));
    var k :| 0 <= k < |preimages| && h(preimages[k]) == h(p);
    assert preimages[k] in BuildInputs(h, preimages);
  }

  // ---------------------------------------------------------------------
  // Batches
  // ---------------------------------------------------------------------

  datatype BatchLeaf = BatchLeaf(entry: Entry, leaf: Bytes, proof: seq<Bytes>)

  datatype Batch = Batch(asset: Bytes, root: Bytes, total: int, depth: nat, leaves: seq<BatchLeaf>)

  datatype BuildError = BadAsset | NonPositive(index: nat) | BadLeaf(index: nat) | Duplicate(index: nat) | NoLeaves

  function Amounts(entries: seq<Entry>): (s: seq<int>)
    ensures |s| == |entries|
  {
    seq(|entries|, i requires 0 <= i < |entries| => entries[i].amount)
  }

  function Entries(leaves: seq<BatchLeaf>): (s: seq<Entry>)
    ensures |s| == |leaves|
  {
    seq(|leaves|, i requires 0 <= i < |leaves| => leaves[i].entry)
  }

  function Digests(leaves: seq<BatchLeaf>): (s: seq<Bytes>)
    ensures |s| == |leaves|
  {
    seq(|leaves|, i requires 0 <= i < |leaves| => leaves[i].leaf)
  }

  predicate Distinct<T(==)>(s: seq<T>) {
    forall i, j :: 0 <= i < j < |s| ==> s[i] != s[j]
  }

  /** The leaf hash of a batch's asset; the batch logic only ever calls it. */
  type LeafHasher = Entry -> Option<Bytes>

  function Hasher(h: Hash, asset: Bytes): LeafHasher {
    e => LeafHash(h, asset, e)
  }

  /** The leaf recorded at position i is what its fields hash to and is a payment. */
  ghost predicate GoodLeaf(lh: LeafHasher, l: BatchLeaf) {
    l.entry.amount > 0 && lh(l.entry) == Some(l.leaf)
  }

  /** Everything verification looks for, stated about the file as a whole. */
  ghost predicate Certified(h: Hash, lh: LeafHasher, b: Batch, expected: int) {
    && (forall i :: 0 <= i < |b.leaves| ==>
          GoodLeaf(lh, b.leaves[i]) && Climb(h, b.leaves[i].leaf, b.leaves[i].proof) == b.root)
    && Distinct(Digests(b.leaves))
    && b.total == expected == Sum(Amounts(Entries(b.leaves)))
    && (b.leaves != [] ==> Root(h, Digests(b.leaves)) == b.root)
  }

  /** The first n entries all pay something, all hash, and no two hash alike. */
  ghost predicate Accepts(lh: LeafHasher, entries: seq<Entry>, n: nat)
    requires n <= |entries|
  {
    && (forall i :: 0 <= i < n ==> entries[i].amount > 0 && lh(entries[i]).Some?)
    && (forall i, j :: 0 <= i < j < n ==> lh(entries[i]) != lh(entries[j]))
  }

  method BuildWith(h: Hash, lh: LeafHasher, asset: Bytes, entries: seq<Entry>) returns (r: Result<Batch, BuildError>)
    ensures r.Ok? <==> Strkey.Decode(asset).Some? && entries != [] && Accepts(lh, entries, |entries|)
    ensures r.Ok? ==>
              && r.value.asset == asset
              && Entries(r.value.leaves) == entries
              && Certified(h, lh, r.value, Sum(Amounts(entries)))
              && |entries| <= Pow2(r.value.depth)
              && (r.value.depth > 0 ==> Pow2(r.value.depth - 1) < |entries|)
              && forall i :: 0 <= i < |entries| ==> |r.value.leaves[i].proof| <= r.value.depth
  {
    if Strkey.Decode(asset).None? {
      return Err(BadAsset);
    }
    var failure, leaves, digests := HashEntries(lh, entries);
    if failure.Some? {
      return Err(failure.value);
    }
    r := Assemble(h, lh, asset, entries, leaves, digests);
  }

  /** Tree, proofs and totals for leaves that have been hashed. */
  method Assemble(h: Hash, lh: LeafHasher, asset: Bytes, entries: seq<Entry>, leaves: seq<BatchLeaf>, digests: seq<Bytes>)
    returns (r: Result<Batch, BuildError>)
    requires |leaves| == |digests| == |entries| && Distinct(digests)
    requires forall i :: 0 <= i < |entries| ==>
               && leaves[i].entry == entries[i] && leaves[i].leaf == digests[i]
               && entries[i].amount > 0 && lh(entries[i]) == Some(digests[i])
    ensures r.Ok? <==> entries != []
    ensures r.Ok? ==>
              && r.value.asset == asset
              && Entries(r.value.leaves) == entries
              && Certified(h, lh, r.value, Sum(Amounts(entries)))
              && |entries| <= Pow2(r.value.depth)
              && (r.value.depth > 0 ==> Pow2(r.value.depth - 1) < |entries|)
              && forall i :: 0 <= i < |entries| ==> |r.value.leaves[i].proof| <= r.value.depth
  {
    var built := BuildTree(h, digests);
    if built.None? {
      return Err(NoLeaves);
    }
    var levels := built.value;
    var root, depth := levels[|levels| - 1][0], |levels| - 1;
    assert |entries| <= Pow2(depth) && (depth > 0 ==> Pow2(depth - 1) < |entries|);
    var done := AttachProofs(h, leaves, digests, levels, root);
    var batch := Batch(asset, root, Sum(Amounts(Entries(done))), depth, done);
    AttachedIsCertified(h, lh, batch, entries, digests, leaves);
    return Ok(batch);
  }

  lemma AttachedIsCertified(h: Hash, lh: LeafHasher, b: Batch, entries: seq<Entry>, digests: seq<Bytes>, leaves: seq<BatchLeaf>)
    requires |entries| == |digests| == |leaves| == |b.leaves| && Distinct(digests)
    requires forall k :: 0 <= k < |entries| ==>
               && Attached(h, b.root, b.depth, digests[k], leaves[k], b.leaves[k])
               && leaves[k].entry == entries[k] && leaves[k].leaf == digests[k]
               && entries[k].amount > 0 && lh(entries[k]) == Some(digests[k])
    requires b.total == Sum(Amounts(Entries(b.leaves)))
    requires b.leaves != [] && b.root == Root(h, digests)
    ensures Entries(b.leaves) == entries && Certified(h, lh, b, Sum(Amounts(entries)))
    ensures forall k :: 0 <= k < |entries| ==> |b.leaves[k].proof| <= b.depth
  {
    assert forall k :: 0 <= k < |entries| ==> Attached(h, b.root, b.depth, digests[k], leaves[k], b.leaves[k]);
    assert Entries(b.leaves) == entries && Digests(b.leaves) == digests;
  }

  /** Only the proof was filled in: it reaches the root and is no longer than the tree is deep. */
  predicate Attached(h: Hash, root: Bytes, depth: nat, d: Bytes, before: BatchLeaf, after: BatchLeaf) {
    after == before.(proof := after.proof) && Climb(h, d, after.proof) == root && |after.proof| <= depth
  }

  method AttachProofs(h: Hash, leaves: seq<BatchLeaf>, digests: seq<Bytes>, levels: seq<seq<Bytes>>, root: Bytes)
    returns (done: seq<BatchLeaf>)
    requires digests != [] && |leaves| == |digests| && levels == Levels(h, Sorted(digests))
    requires root == Root(h, digests)
    ensures |done| == |leaves|
    ensures forall k :: 0 <= k < |leaves| ==> Attached(h, root, |levels| - 1, digests[k], leaves[k], done[k])
  {
    done := [];
    for i := 0 to |leaves|
      invariant |done| == i
      invariant forall k :: 0 <= k < i ==> Attached(h, root, |levels| - 1, digests[k], leaves[k], done[k])
    {
      var proof := PathToRoot(h, digests, levels, i);
      done := done + [leaves[i].(proof := proof)];
    }
  }

  /** The hashing loop: one leaf per entry, refusing bad amounts, bad fields and duplicates. */
  method HashEntries(lh: LeafHasher, entries: seq<Entry>)
    returns (failure: Option<BuildError>, leaves: seq<BatchLeaf>, digests: seq<Bytes>)
    ensures failure.None? <==> Accepts(lh, entries, |entries|)
    ensures failure.None? ==>
              && |leaves| == |digests| == |entries|
              && Distinct(digests)
              && forall i :: 0 <= i < |entries| ==>
                   && leaves[i].entry == entries[i] && leaves[i].leaf == digests[i]
                   && entries[i].amount > 0 && lh(entries[i]) == Some(digests[i])
  {
    leaves, digests := [], [];
    var seen := {};
    for i := 0 to |entries|
      invariant |leaves| == |digests| == i
      invariant Accepts(lh, entries, i)
      invariant forall k :: 0 <= k < i ==>
                  && leaves[k].entry == entries[k] && leaves[k].leaf == digests[k]
                  && lh(entries[k]) == Some(digests[k])
      invariant forall d :: d in seen <==> d in digests
    {
      var e := entries[i];
      if e.amount <= 0 {
        return Some(NonPositive(i)), leaves, digests;
      }
      var d := lh(e);
      if d.None? {
        return Some(BadLeaf(i)), leaves, digests;
      }
      if d.value in seen {
        return Some(Duplicate(i)), leaves, digests;
      }
      seen := seen + {d.value};
      digests := digests + [d.value];
      leaves := leaves + [BatchLeaf(e, d.value, [])];
    }
    return None, leaves, digests;
  }

  method PathToRoot(h: Hash, digests: seq<Bytes>, levels: seq<seq<Bytes>>, i: nat) returns (proof: seq<Bytes>)
    requires i < |digests| && levels == Levels(h, Sorted(digests))
    ensures Climb(h, digests[i], proof) == Root(h, digests)
    ensures |proof| <= |levels| - 1
  {
    SortedSameElements(digests, digests[i]);
    var p := ProofFor(levels, digests[i]);
    ghost var k :| 0 <= k < |levels[0]| && levels[0][k] == digests[i] && p.value == ProofAt(levels, k);
    ProofReachesTop(h, Sorted(digests), k);
    return p.value;
  }

  /** The elements of a set in some order of the runtime's choosing. */
  method ListOf(s: set<Bytes>) returns (l: seq<Bytes>)
    ensures multiset(l) == multiset(s) && |l| == |s|
  {
    l := [];
    var rest := s;
    while rest != {}
      invariant rest <= s && multiset(l) == multiset(s - rest) && |l| == |s - rest|
    {
      var x :| x in rest;
      assert s - (rest - {x}) == (s - rest) + {x};
      rest := rest - {x};
      l := l + [x];
    }
    assert s - rest == s;
  }

  datatype VerifyError =
    | NonPositiveLeaf(index: nat)
    | WrongHash(index: nat)
    | DuplicateLeaf(index: nat)
    | ProofFails(index: nat)
    | FileTotalMismatch
    | UnexpectedTotal
    | RootMismatch

  /** The first n leaves pass every per-leaf check. */
  ghost predicate PrefixPasses(h: Hash, lh: LeafHasher, b: Batch, n: nat)
    requires n <= |b.leaves|
  {
    && (forall i :: 0 <= i < n ==>
          GoodLeaf(lh, b.leaves[i]) && Climb(h, b.leaves[i].leaf, b.leaves[i].proof) == b.root)
    && (forall i, j :: 0 <= i < j < n ==> b.leaves[i].leaf != b.leaves[j].leaf)
  }

  /** The hashes of the first n leaves' fields. */
  ghost predicate SeenHashes(h: Hash, lh: LeafHasher, b: Batch, n: nat, seen: set<Bytes>)
    requires n <= |b.leaves|
  {
    forall d :: d in seen <==> exists k :: 0 <= k < n && lh(b.leaves[k].entry) == Some(d)
  }

  lemma SeenStep(h: Hash, lh: LeafHasher, b: Batch, i: nat, seen: set<Bytes>, d: Bytes)
    requires i < |b.leaves| && SeenHashes(h, lh, b, i, seen) && lh(b.leaves[i].entry) == Some(d)
    ensures SeenHashes(h, lh, b, i + 1, seen + {d})
  {
  }

  /** While every leaf so far is good, a hash was seen exactly when an earlier leaf stores it. */
  lemma SeenMeansStored(h: Hash, lh: LeafHasher, b: Batch, i: nat, seen: set<Bytes>, d: Bytes)
    requires i <= |b.leaves| && SeenHashes(h, lh, b, i, seen) && PrefixPasses(h, lh, b, i)
    ensures d in seen <==> exists k :: 0 <= k < i && b.leaves[k].leaf == d
  {
    if k :| 0 <= k < i && b.leaves[k].leaf == d {
      assert GoodLeaf(lh, b.leaves[k]);
    }
    if d in seen {
      var k :| 0 <= k < i && lh(b.leaves[k].entry) == Some(d);
      assert GoodLeaf(lh, b.leaves[k]);
    }
  }

  /** One more leaf passes when its own checks pass and its hash is new. */
  lemma PrefixStep(h: Hash, lh: LeafHasher, b: Batch, i: nat, seen: set<Bytes>, d: Bytes)
    requires i < |b.leaves| && SeenHashes(h, lh, b, i, seen) && lh(b.leaves[i].entry) == Some(d)
    ensures PrefixPasses(h, lh, b, i + 1) <==>
              && PrefixPasses(h, lh, b, i) && d !in seen
              && GoodLeaf(lh, b.leaves[i]) && Climb(h, d, b.leaves[i].proof) == b.root
  {
    if PrefixPasses(h, lh, b, i) {
      SeenMeansStored(h, lh, b, i, seen, d);
    }
  }

  /** The checks made on one leaf whose fields hash to `d`. */
  method CheckLeaf(h: Hash, lh: LeafHasher, b: Batch, i: nat, d: Bytes, seen: set<Bytes>) returns (errors: seq<VerifyError>)
    requires i < |b.leaves| && lh(b.leaves[i].entry) == Some(d)
    ensures errors == [] <==>
              d !in seen && GoodLeaf(lh, b.leaves[i]) && Climb(h, d, b.leaves[i].proof) == b.root
  {
    var l := b.leaves[i];
    errors := [];
    if l.entry.amount <= 0 {
      errors := errors + [NonPositiveLeaf(i)];
    }
    if d != l.leaf {
      errors := errors + [WrongHash(i)];
    }
    if d in seen {
      errors := errors + [DuplicateLeaf(i)];
    }
    var ok := VerifyProof(h, b.root, d, l.proof);
    if !ok {
      errors := errors + [ProofFails(i)];
    }
  }

  method CheckTotals(b: Batch, total: int, expected: int) returns (errors: seq<VerifyError>)
    ensures errors == [] <==> b.total == total == expected
  {
    errors := [];
    if b.total != total {
      errors := errors + [FileTotalMismatch];
    }
    if total != expected {
      errors := errors + [UnexpectedTotal];
    }
  }

  /** None where hashing a leaf raises; otherwise no errors exactly for certified batches. */
  method VerifyWith(h: Hash, lh: LeafHasher, b: Batch, expected: int) returns (r: Option<seq<VerifyError>>)
    ensures r.None? <==> exists i :: 0 <= i < |b.leaves| && lh(b.leaves[i].entry).None?
    ensures r.Some? ==> (r.value == [] <==> Certified(h, lh, b, expected))
  {
    var errors: seq<VerifyError> := [];
    var seen: set<Bytes> := {};
    var total := 0;
    for i := 0 to |b.leaves|
      invariant forall k :: 0 <= k < i ==> lh(b.leaves[k].entry).Some?
      invariant errors == [] <==> PrefixPasses(h, lh, b, i)
      invariant SeenHashes(h, lh, b, i, seen)
      invariant total == Sum(Amounts(Entries(b.leaves))[..i])
    {
      var hash := lh(b.leaves[i].entry);
      if hash.None? {
        return None;
      }
      PrefixStep(h, lh, b, i, seen, hash.value);
      SeenStep(h, lh, b, i, seen, hash.value);
      var found := CheckLeaf(h, lh, b, i, hash.value, seen);
      errors := errors + found;
      seen := seen + {hash.value};
      SumPrefix(Amounts(Entries(b.leaves)), i);
      total := total + b.leaves[i].entry.amount;
    }
    assert Amounts(Entries(b.leaves))[..|b.leaves|] == Amounts(Entries(b.leaves));
    var mismatches := CheckTotals(b, total, expected);
    errors := errors + mismatches;
    var rootOk := RebuildMatches(h, lh, b, seen);
    if !rootOk {
      errors := errors + [RootMismatch];
    }
    CertifiedParts(h, lh, b, expected);
    return Some(errors);
  }

  lemma CertifiedParts(h: Hash, lh: LeafHasher, b: Batch, expected: int)
    ensures Certified(h, lh, b, expected) <==>
              && PrefixPasses(h, lh, b, |b.leaves|)
              && b.total == expected == Sum(Amounts(Entries(b.leaves)))
              && (b.leaves == [] || Root(h, Digests(b.leaves)) == b.root)
  {
    var ds := Digests(b.leaves);
    assert forall i :: 0 <= i < |ds| ==> ds[i] == b.leaves[i].leaf;
  }

  /** Rebuilds the tree from the set of leaf hashes and compares roots. */
  method RebuildMatches(h: Hash, lh: LeafHasher, b: Batch, seen: set<Bytes>) returns (ok: bool)
    requires forall k :: 0 <= k < |b.leaves| ==> lh(b.leaves[k].entry).Some?
    requires SeenHashes(h, lh, b, |b.leaves|, seen)
    ensures PrefixPasses(h, lh, b, |b.leaves|) ==>
              (ok <==> b.leaves == [] || Root(h, Digests(b.leaves)) == b.root)
  {
    var list := ListOf(seen);
    ListIsDigests(h, lh, b, seen, list);
    if seen == {} {
      return true;
    }
    var rebuilt := BuildTree(h, list);
    return rebuilt.value[|rebuilt.value| - 1][0] == b.root;
  }

  lemma ListIsDigests(h: Hash, lh: LeafHasher, b: Batch, seen: set<Bytes>, list: seq<Bytes>)
    requires forall k :: 0 <= k < |b.leaves| ==> lh(b.leaves[k].entry).Some?
    requires SeenHashes(h, lh, b, |b.leaves|, seen) && multiset(list) == multiset(seen)
    ensures PrefixPasses(h, lh, b, |b.leaves|) ==>
              && (seen == {} <==> b.leaves == [])
              && (b.leaves != [] ==> list != [] && Root(h, list) == Root(h, Digests(b.leaves)))
  {
    if PrefixPasses(h, lh, b, |b.leaves|) {
      var ds := Digests(b.leaves);
      forall d
        ensures d in seen <==> d in ds
      {
        SeenMeansStored(h, lh, b, |b.leaves|, seen, d);
        if k :| 0 <= k < |b.leaves| && b.leaves[k].leaf == d {
          assert ds[k] == d;
        }
      }
      if b.leaves != [] {
        assert ds[0] in seen;
        SameElementsSameRoot(h, seen, list, ds);
      }
    }
  }

  lemma SameElementsSameRoot(h: Hash, s: set<Bytes>, list: seq<Bytes>, ds: seq<Bytes>)
    requires multiset(list) == multiset(s) && Distinct(ds) && ds != []
    requires forall d :: d in s <==> d in ds
    ensures list != [] && Root(h, list) == Root(h, ds)
  {
    DistinctMultiset(ds);
    assert (set d | d in ds) == s;
    assert ds[0] in multiset(list);
    RootOrderIndependent(h, list, ds);
  }

  lemma {:induction false} DistinctMultiset(s: seq<Bytes>)
    requires Distinct(s)
    ensures multiset(s) == multiset(set x | x in s)
  {
    if s != [] {
      var n := |s| - 1;
      DistinctMultiset(s[..n]);
      assert s == s[..n] + [s[n]];
      assert s[n] !in s[..n];
      assert (set x | x in s) == (set x | x in s[..n]) + {s[n]};
    }
  }

  method BuildBatch(h: Hash, asset: Bytes, entries: seq<Entry>) returns (r: Result<Batch, BuildError>)
    ensures r.Ok? <==> Strkey.Decode(asset).Some? && entries != [] && Accepts(Hasher(h, asset), entries, |entries|)
    ensures r.Ok? ==>
              && r.value.asset == asset
              && Entries(r.value.leaves) == entries
              && Certified(h, Hasher(h, asset), r.value, Sum(Amounts(entries)))
              && |entries| <= Pow2(r.value.depth)
              && (r.value.depth > 0 ==> Pow2(r.value.depth - 1) < |entries|)
              && forall i :: 0 <= i < |entries| ==> |r.value.leaves[i].proof| <= r.value.depth
  {
    r := BuildWith(h, Hasher(h, asset), asset, entries);
  }

  /** None where hashing a leaf raises; otherwise no errors exactly for certified batches. */
  method VerifyBatch(h: Hash, b: Batch, expected: int) returns (r: Option<seq<VerifyError>>)
    ensures r.None? <==> exists i :: 0 <= i < |b.leaves| && LeafHash(h, b.asset, b.leaves[i].entry).None?
    ensures r.Some? ==> (r.value == [] <==> Certified(h, Hasher(h, b.asset), b, expected))
  {
    r := VerifyWith(h, Hasher(h, b.asset), b, expected);
  }

  // ---------------------------------------------------------------------
  // What a root commits to
  // ---------------------------------------------------------------------

  predicate EveryLeafHashes(b: Batch) {
    forall i :: 0 <= i < |b.leaves| ==> LeafPreimage(b.asset, b.leaves[i].entry).Some?
  }

  function LeafInputs(b: Batch): (s: seq<Bytes>)
    requires EveryLeafHashes(b)
    ensures |s| == |b.leaves|
  {
    seq(|b.leaves|, i requires 0 <= i < |b.leaves| => LeafPreimage(b.asset, b.leaves[i].entry).value)
  }

  lemma CertifiedInputs(h: Hash, b: Batch, expected: int)
    requires Certified(h, Hasher(h, b.asset), b, expected)
    ensures EveryLeafHashes(b)
    ensures LeafDigests(h, LeafInputs(b)) == Digests(b.leaves)
    ensures Tagged(LeafInputs(b))
  {
    forall i | 0 <= i < |b.leaves|
      ensures LeafHash(h, b.asset, b.leaves[i].entry) == Some(b.leaves[i].leaf)
    {
      assert GoodLeaf(Hasher(h, b.asset), b.leaves[i]);
    }
  }

  /**
   * Checking the claim that `asset` pays `e` under this batch's root hashes
   * nothing that collides with a different string hashed to build the batch.
   */
  ghost predicate ChecksApart(h: Hash, b: Batch, asset: Bytes, e: Entry, proof: seq<Bytes>)
    requires LeafPreimage(asset, e).Some? && b.leaves != []
  {
    var p := LeafPreimage(asset, e).value;
    EveryLeafHashes(b) ==> Separates(h, [p] + ClimbInputs(h, h(p), proof), BuildInputs(h, LeafInputs(b)))
  }

  /** A claim the published root accepts is, field for field, one of the batch's entries. */
  lemma ClaimIsEntry(h: Hash, b: Batch, expected: int, asset: Bytes, e: Entry, proof: seq<Bytes>) returns (i: nat)
    requires IsHash(h) && b.leaves != [] && Certified(h, Hasher(h, b.asset), b, expected)
    requires LeafHash(h, asset, e).Some? && Climb(h, LeafHash(h, asset, e).value, proof) == b.root
    requires ChecksApart(h, b, asset, e, proof)
    ensures asset == b.asset && i < |b.leaves| && b.leaves[i].entry == e
  {
    var p := LeafPreimage(asset, e).value;
    CertifiedInputs(h, b, expected);
    MerkleSoundness(h, LeafInputs(b), p, proof);
    i :| 0 <= i < |b.leaves| && LeafInputs(b)[i] == p;
    assert LeafPreimage(b.asset, b.leaves[i].entry) == Some(p);
    LeafPreimageInjective(asset, e, b.asset, b.leaves[i].entry);
  }

  /** Two certified batches under one root pay the same people the same amounts. */
  lemma RootBindsBatch(h: Hash, b: Batch, expected: int, b': Batch, expected': int, i: nat) returns (j: nat)
    requires IsHash(h) && Certified(h, Hasher(h, b.asset), b, expected) && Certified(h, Hasher(h, b'.asset), b', expected')
    requires b.root == b'.root && b.leaves != [] && i < |b'.leaves|
    requires ChecksApart(h, b, b'.asset, b'.leaves[i].entry, b'.leaves[i].proof)
    ensures b.asset == b'.asset && j < |b.leaves| && b.leaves[j].entry == b'.leaves[i].entry
  {
    assert GoodLeaf(Hasher(h, b'.asset), b'.leaves[i]);
    j := ClaimIsEntry(h, b, expected, b'.asset, b'.leaves[i].entry, b'.leaves[i].proof);
  }
}
