/**
 * XDR (RFC 4506) for contract values: a writer and a reader over the same
 * recursive value type. `Write` and `Read` say what bytes stand for a value;
 * the reader and writer classes are proved against them.
 */
module Xdr {
  import opened Bits
  import opened ByteStrings
  import opened Results
  import Strkey

  datatype Sc =
    | ScBool(b: bool)
    | ScVoid
    | ScError(kind: int, code: int)
    | ScU32(n: int)
    | ScI32(n: int)
    | ScU64(n: int)
    | ScI64(n: int)
    | ScTimepoint(n: int)
    | ScDuration(n: int)
    | ScU128(n: int)
    | ScI128(n: int)
    | ScU256(n: int)
    | ScI256(n: int)
    | ScBytes(data: Bytes)
    | ScString(data: Bytes)
    | ScSymbol(data: Bytes)
    | ScNoVec
    | ScVec(items: seq<Sc>)
    | ScNoMap
    | ScMap(entries: seq<ScEntry>)
    | ScAddress(key: Bytes)
    | ScBareInstance(executable: Option<Bytes>)
    | ScInstance(executable: Option<Bytes>, storage: seq<ScEntry>)
    | ScLedgerKeyInstance
    | ScNonce(n: int)

  datatype ScEntry = ScEntry(key: Sc, val: Sc)

  /** SCValType codes. */
  function Tag(v: Sc): nat {
    match v
    case ScBool(_) => 0
    case ScVoid => 1
    case ScError(_, _) => 2
    case ScU32(_) => 3
    case ScI32(_) => 4
    case ScU64(_) => 5
    case ScI64(_) => 6
    case ScTimepoint(_) => 7
    case ScDuration(_) => 8
    case ScU128(_) => 9
    case ScI128(_) => 10
    case ScU256(_) => 11
    case ScI256(_) => 12
    case ScBytes(_) => 13
    case ScString(_) => 14
    case ScSymbol(_) => 15
    case ScNoVec => 16
    case ScVec(_) => 16
    case ScNoMap => 17
    case ScMap(_) => 17
    case ScAddress(_) => 18
    case ScBareInstance(_) => 19
    case ScInstance(_, _) => 19
    case ScLedgerKeyInstance => 20
    case ScNonce(_) => 21
  }

  // ---------------------------------------------------------------------
  // Writing. None stands for an exception.
  // ---------------------------------------------------------------------

  function Join(a: Option<Bytes>, b: Option<Bytes>): Option<Bytes> {
    if a.Some? && b.Some? then Some(a.value + b.value) else None
  }

  function WUnsigned(n: int, width: nat): Option<Bytes> {
    if 0 <= n < Capacity(width) then Some(BigEndian(n, width)) else None
  }

  function WSigned(n: int, width: nat): Option<Bytes> {
    if 0 <= 2 * n + Capacity(width) < 2 * Capacity(width) then Some(SignedBigEndian(n, width)) else None
  }

  function Pad(n: nat): (p: nat)
    ensures p < 4 && (n + p) % 4 == 0
  {
    (4 - n % 4) % 4
  }

  function Zeros(n: nat): (z: Bytes)
    ensures |z| == n
  {
    seq(n, _ => 0)
  }

  /** Variable-length opaque: length, data, zero padding to a multiple of four. */
  function WVar(data: Bytes): Option<Bytes> {
    Join(WUnsigned(|data|, 4), Some(data + Zeros(Pad(|data|))))
  }

  function WAddress(key: Bytes): Option<Bytes> {
    match Strkey.Decode(key)
    case None => None
    case Some((version, payload)) =>
      if version == Strkey.VERSION_ACCOUNT then Some(BigEndian(0, 4) + BigEndian(0, 4) + payload)
      else if version == Strkey.VERSION_CONTRACT then Some(BigEndian(1, 4) + payload)
      else None
  }

  function WExecutable(executable: Option<Bytes>): Option<Bytes> {
    match executable
    case None => Some(BigEndian(1, 4))
    case Some(hash) => Some(BigEndian(0, 4) + hash)
  }

  /** The two words of `n & (2^128 - 1)`: anything outside 128 bits is cut off without complaint. */
  function W128(n: int): Option<Bytes> {
    Some(BigEndian((n / TWO_64) % TWO_64, 8) + BigEndian(n % TWO_64, 8))
  }

  function WriteBody(v: Sc): Option<Bytes>
    decreases v, 0
  {
    match v
    case ScBool(b) => WUnsigned(if b then 1 else 0, 4)
    case ScVoid => Some([])
    case ScU32(n) => WUnsigned(n, 4)
    case ScI32(n) => WSigned(n, 4)
    case ScU64(n) => WUnsigned(n, 8)
    case ScI64(n) => WSigned(n, 8)
    case ScTimepoint(n) => WUnsigned(n, 8)
    case ScDuration(n) => WUnsigned(n, 8)
    case ScU128(n) => W128(n)
    case ScI128(n) => W128(n)
    case ScBytes(data) => WVar(data)
    case ScString(data) => WVar(data)
    case ScSymbol(data) => WVar(data)
    case ScVec(items) => Join(WUnsigned(1, 4), Join(WUnsigned(|items|, 4), WriteAll(items)))
    case ScMap(entries) => Join(WUnsigned(1, 4), Join(WUnsigned(|entries|, 4), WriteEntries(entries)))
    case ScAddress(key) => WAddress(key)
    case ScBareInstance(executable) => Join(WExecutable(executable), WUnsigned(0, 4))
    case ScInstance(executable, storage) =>
      Join(WExecutable(executable), Join(WUnsigned(1, 4), Join(WUnsigned(|storage|, 4), WriteEntries(storage))))
    case ScLedgerKeyInstance => Some([])
    case ScError(_, _) => None
    case ScU256(_) => None
    case ScI256(_) => None
    case ScNoVec => None
    case ScNoMap => None
    case ScNonce(_) => None
  }

  function Write(v: Sc): Option<Bytes>
    decreases v, 1
  {
    Join(Some(BigEndian(Tag(v), 4)), WriteBody(v))
  }

  function WriteAll(items: seq<Sc>): Option<Bytes>
    decreases items, 0
  {
    if items == [] then Some([]) else Join(Write(items[0]), WriteAll(items[1..]))
  }

  function WriteEntry(e: ScEntry): Option<Bytes>
    decreases e, 2
  {
    Join(Write(e.key), Write(e.val))
  }

  function WriteEntries(entries: seq<ScEntry>): Option<Bytes>
    decreases entries, 0
  {
    if entries == [] then Some([]) else Join(WriteEntry(entries[0]), WriteEntries(entries[1..]))
  }

  // ---------------------------------------------------------------------
  // Reading. Fail stands for an exception.
  // ---------------------------------------------------------------------

  datatype Parsed<+T> = Fail | Got(value: T, rest: Bytes)

  function RFixed(bs: Bytes, n: nat): (p: Parsed<Bytes>)
    ensures p.Got? <==> n <= |bs|
    ensures p.Got? ==> bs == p.value + p.rest && |p.value| == n
  {
    if n > |bs| then Fail else Got(bs[..n], bs[n..])
  }

  function RUnsigned(bs: Bytes, width: nat): (p: Parsed<int>)
    ensures p.Got? ==> |p.rest| + width == |bs|
    ensures p.Got? ==> 0 <= p.value < Capacity(width)
  {
    match RFixed(bs, width)
    case Fail => Fail
    case Got(b, rest) =>
      BytesRoundTrip(b);
      Got(FromBigEndian(b), rest)
  }

  function RSigned(bs: Bytes, width: nat): (p: Parsed<int>)
    ensures p.Got? ==> |p.rest| + width == |bs|
    ensures p.Got? ==> 0 <= 2 * p.value + Capacity(width) < 2 * Capacity(width)
  {
    match RUnsigned(bs, width)
    case Fail => Fail
    case Got(n, rest) => Got(Signed(n, Capacity(width)), rest)
  }

  function RVar(bs: Bytes): (p: Parsed<Bytes>)
    ensures p.Got? ==> |p.rest| + 4 <= |bs|
  {
    match RUnsigned(bs, 4)
    case Fail => Fail
    case Got(n, rest) =>
      match RFixed(rest, n)
      case Fail => Fail
      case Got(data, tail) =>
        match RFixed(tail, Pad(n))
        case Fail => Fail
        case Got(_, after) => Got(data, after)
  }

  function RAddress(bs: Bytes): (p: Parsed<Bytes>)
    ensures p.Got? ==> |p.rest| <= |bs|
  {
    match RUnsigned(bs, 4)
    case Fail => Fail
    case Got(kind, rest) =>
      if kind == 0 then
        match RUnsigned(rest, 4)
        case Fail => Fail
        case Got(keyType, tail) =>
          if keyType != 0 then Fail
          else
            match RFixed(tail, 32)
            case Fail => Fail
            case Got(payload, after) => Got(Strkey.Encode(Strkey.VERSION_ACCOUNT, payload), after)
      else if kind == 1 then
        match RFixed(rest, 32)
        case Fail => Fail
        case Got(payload, after) => Got(Strkey.Encode(Strkey.VERSION_CONTRACT, payload), after)
      else Fail
  }

  function RExecutable(bs: Bytes): (p: Parsed<Option<Bytes>>)
    ensures p.Got? ==> |p.rest| + 4 <= |bs|
  {
    match RUnsigned(bs, 4)
    case Fail => Fail
    case Got(kind, rest) =>
      if kind == 0 then
        match RFixed(rest, 32)
        case Fail => Fail
        case Got(hash, tail) => Got(Some(hash), tail)
      else Got(None, rest)
  }

  /** `(hi << 64) | lo` */
  function R128(bs: Bytes): (p: Parsed<int>)
    ensures p.Got? ==> |p.rest| <= |bs| && 0 <= p.value < TWO_128
  {
    match RUnsigned(bs, 8)
    case Fail => Fail
    case Got(hi, rest) =>
      match RUnsigned(rest, 8)
      case Fail => Fail
      case Got(lo, tail) =>
        JoinWords(hi, lo);
        Got(Or(hi * TWO_64, lo), tail)
  }

  lemma JoinWords(hi: nat, lo: nat)
    requires hi < Capacity(8) && lo < Capacity(8)
    ensures Or(hi * TWO_64, lo) == hi * TWO_64 + lo < TWO_128
  {
    WordCapacities();
    var half, word := WordBits();
    MultipleHasNoRemainder(hi, TWO_64);
    OrCommutes(hi * TWO_64, lo);
    OrDisjoint(lo, hi * TWO_64, half);
  }

  lemma OrCommutes(a: nat, b: nat)
    ensures Or(a, b) == Or(b, a)
  {
  }

  /** `(hi << 64) + lo` with a signed high word. */
  function RSigned128(bs: Bytes): (p: Parsed<int>)
    ensures p.Got? ==> |p.rest| <= |bs| && 0 <= 2 * p.value + TWO_128 < 2 * TWO_128
  {
    match RSigned(bs, 8)
    case Fail => Fail
    case Got(hi, rest) =>
      match RUnsigned(rest, 8)
      case Fail => Fail
      case Got(lo, tail) =>
        WordCapacities();
        Got(hi * TWO_64 + lo, tail)
  }

  function R256(bs: Bytes): (p: Parsed<int>)
    ensures p.Got? ==> |p.rest| <= |bs|
  {
    match R128(bs)
    case Fail => Fail
    case Got(hi, rest) =>
      match R128(rest)
      case Fail => Fail
      case Got(lo, tail) => Got(hi * TWO_128 + lo, tail)
  }

  function RSigned256(bs: Bytes): (p: Parsed<int>)
    ensures p.Got? ==> |p.rest| <= |bs|
  {
    match RSigned128(bs)
    case Fail => Fail
    case Got(hi, rest) =>
      match R128(rest)
      case Fail => Fail
      case Got(lo, tail) => Got(hi * TWO_128 + lo, tail)
  }

  function RError(bs: Bytes): (p: Parsed<Sc>)
    ensures p.Got? ==> |p.rest| <= |bs| && ScalarInRange(p.value)
  {
    match RUnsigned(bs, 4)
    case Fail => Fail
    case Got(kind, rest) =>
      match RUnsigned(rest, 4)
      case Fail => Fail
      case Got(code, tail) => Got(ScError(kind, code), tail)
  }

  function RVec(bs: Bytes): (p: Parsed<Sc>)
    ensures p.Got? ==> |p.rest| <= |bs|
    decreases |bs|, 0
  {
    match RUnsigned(bs, 4)
    case Fail => Fail
    case Got(flag, rest) =>
      if flag == 0 then Got(ScNoVec, rest)
      else
        match RUnsigned(rest, 4)
        case Fail => Fail
        case Got(n, tail) =>
          match ReadAll(tail, n)
          case Fail => Fail
          case Got(items, after) => Got(ScVec(items), after)
  }

  function RMap(bs: Bytes): (p: Parsed<Sc>)
    ensures p.Got? ==> |p.rest| <= |bs|
    decreases |bs|, 0
  {
    match RUnsigned(bs, 4)
    case Fail => Fail
    case Got(flag, rest) =>
      if flag == 0 then Got(ScNoMap, rest)
      else
        match RUnsigned(rest, 4)
        case Fail => Fail
        case Got(n, tail) =>
          match ReadEntries(tail, n)
          case Fail => Fail
          case Got(entries, after) => Got(ScMap(entries), after)
  }

  function RInstance(bs: Bytes): (p: Parsed<Sc>)
    ensures p.Got? ==> |p.rest| <= |bs|
    decreases |bs|, 0
  {
    match RExecutable(bs)
    case Fail => Fail
    case Got(executable, rest) =>
      match RUnsigned(rest, 4)
      case Fail => Fail
      case Got(flag, tail) =>
        if flag == 0 then Got(ScBareInstance(executable), tail)
        else
          match RUnsigned(tail, 4)
          case Fail => Fail
          case Got(n, more) =>
            match ReadEntries(more, n)
            case Fail => Fail
            case Got(storage, after) => Got(ScInstance(executable, storage), after)
  }

  function RUnsignedKind(t: int, bs: Bytes): (p: Parsed<Sc>)
    requires t in {0, 3, 5, 7, 8}
    ensures p.Got? ==> |p.rest| <= |bs| && ScalarInRange(p.value)
  {
    match RUnsigned(bs, if t in {0, 3} then 4 else 8)
    case Fail => Fail
    case Got(n, rest) =>
      Got(if t == 0 then ScBool(n != 0) else if t == 3 then ScU32(n)
          else if t == 5 then ScU64(n) else if t == 7 then ScTimepoint(n) else ScDuration(n), rest)
  }

  function RSignedKind(t: int, bs: Bytes): (p: Parsed<Sc>)
    requires t in {4, 6, 21}
    ensures p.Got? ==> |p.rest| <= |bs| && ScalarInRange(p.value)
  {
    match RSigned(bs, if t == 4 then 4 else 8)
    case Fail => Fail
    case Got(n, rest) => Got(if t == 4 then ScI32(n) else if t == 6 then ScI64(n) else ScNonce(n), rest)
  }

  function ROpaqueKind(t: int, bs: Bytes): (p: Parsed<Sc>)
    requires t in {13, 14, 15}
    ensures p.Got? ==> |p.rest| <= |bs| && ScalarInRange(p.value)
  {
    match RVar(bs)
    case Fail => Fail
    case Got(d, rest) => Got(if t == 13 then ScBytes(d) else if t == 14 then ScString(d) else ScSymbol(d), rest)
  }

  function RWideKind(t: int, bs: Bytes): (p: Parsed<Sc>)
    requires t in {9, 10, 11, 12}
    ensures p.Got? ==> |p.rest| <= |bs| && ScalarInRange(p.value)
  {
    match (if t == 9 then R128(bs) else if t == 10 then RSigned128(bs) else if t == 11 then R256(bs) else RSigned256(bs))
    case Fail => Fail
    case Got(n, rest) =>
      Got(if t == 9 then ScU128(n) else if t == 10 then ScI128(n) else if t == 11 then ScU256(n) else ScI256(n), rest)
  }

  function RAddressKind(bs: Bytes): (p: Parsed<Sc>)
    ensures p.Got? ==> |p.rest| <= |bs| && ScalarInRange(p.value)
  {
    match RAddress(bs)
    case Fail => Fail
    case Got(k, rest) => Got(ScAddress(k), rest)
  }

  /** The kinds that hold no other values. */
  function ReadScalar(t: int, bs: Bytes): (p: Parsed<Sc>)
    ensures p.Got? ==> |p.rest| <= |bs| && ScalarInRange(p.value)
  {
    if t in {0, 3, 5, 7, 8} then RUnsignedKind(t, bs)
    else if t in {4, 6, 21} then RSignedKind(t, bs)
    else if t in {13, 14, 15} then ROpaqueKind(t, bs)
    else if t in {9, 10, 11, 12} then RWideKind(t, bs)
    else if t == 18 then RAddressKind(bs)
    else if t == 1 then Got(ScVoid, bs)
    else if t == 20 then Got(ScLedgerKeyInstance, bs)
    else if t == 2 then RError(bs)
    else Fail
  }

  /** Nothing nested, and 128-bit integers within 128 bits. */
  predicate ScalarInRange(v: Sc) {
    match v
    case ScU128(n) => 0 <= n < TWO_128
    case ScI128(n) => 0 <= 2 * n + TWO_128 < 2 * TWO_128
    case ScVec(_) => false
    case ScMap(_) => false
    case ScInstance(_, _) => false
    case ScBareInstance(_) => false
    case _ => true
  }

  function ReadBody(t: int, bs: Bytes): (p: Parsed<Sc>)
    ensures p.Got? ==> |p.rest| <= |bs|
    decreases |bs|, 1
  {
    if t == 16 then RVec(bs)
    else if t == 17 then RMap(bs)
    else if t == 19 then RInstance(bs)
    else ReadScalar(t, bs)
  }

  function Read(bs: Bytes): (p: Parsed<Sc>)
    ensures p.Got? ==> |p.rest| + 4 <= |bs|
    decreases |bs|, 2
  {
    match RUnsigned(bs, 4)
    case Fail => Fail
    case Got(t, rest) => ReadBody(t, rest)
  }

  function ReadAll(bs: Bytes, n: nat): (p: Parsed<seq<Sc>>)
    ensures p.Got? ==> |p.rest| <= |bs| && |p.value| == n
    decreases |bs|, 3
  {
    if n == 0 then Got([], bs)
    else
      match Read(bs)
      case Fail => Fail
      case Got(v, rest) =>
        match ReadAll(rest, n - 1)
        case Fail => Fail
        case Got(vs, after) => Got([v] + vs, after)
  }

  function ReadEntries(bs: Bytes, n: nat): (p: Parsed<seq<ScEntry>>)
    ensures p.Got? ==> |p.rest| <= |bs| && |p.value| == n
    decreases |bs|, 3
  {
    if n == 0 then Got([], bs)
    else
      match Read(bs)
      case Fail => Fail
      case Got(k, rest) =>
        match Read(rest)
        case Fail => Fail
        case Got(v, tail) =>
          match ReadEntries(tail, n - 1)
          case Fail => Fail
          case Got(es, after) => Got([ScEntry(k, v)] + es, after)
  }

  // ---------------------------------------------------------------------
  // Round trip
  // ---------------------------------------------------------------------

  /**
   * The values whose encoding loses nothing: 128-bit integers inside their
   * range and executable hashes of 32 bytes, at every nesting depth. The
   * writer checks neither.
   */
  predicate Canonical(v: Sc)
    decreases v
  {
    match v
    case ScU128(n) => 0 <= n < TWO_128
    case ScI128(n) => 0 <= 2 * n + TWO_128 < 2 * TWO_128
    case ScVec(items) => forall i :: 0 <= i < |items| ==> Canonical(items[i])
    case ScMap(entries) => forall i :: 0 <= i < |entries| ==> CanonicalEntry(entries[i])
    case ScBareInstance(executable) => executable.Some? ==> |executable.value| == 32
    case ScInstance(executable, storage) =>
      && (executable.Some? ==> |executable.value| == 32)
      && forall i :: 0 <= i < |storage| ==> CanonicalEntry(storage[i])
    case _ => true
  }

  predicate CanonicalEntry(e: ScEntry)
    decreases e
  {
    Canonical(e.key) && Canonical(e.val)
  }

  /** XDR items occupy whole 4-byte units. */
  predicate Aligned(b: Bytes) {
    |b| % 4 == 0
  }

  lemma AlignedConcat(a: Bytes, b: Bytes)
    requires Aligned(a) && Aligned(b)
    ensures Aligned(a + b)
  {
  }

  lemma Assoc(a: Bytes, b: Bytes, c: Bytes)
    ensures (a + b) + c == a + (b + c)
  {
  }

  lemma UnsignedRoundTrip(n: int, width: nat, s: Bytes)
    requires 0 <= n < Capacity(width)
    ensures RUnsigned(BigEndian(n, width) + s, width) == Got(n, s)
  {
    BigEndianRoundTrip(n, width);
    ConcatSplit(BigEndian(n, width), s, (BigEndian(n, width) + s)[..width], (BigEndian(n, width) + s)[width..]);
  }

  lemma SignedFieldRoundTrip(n: int, width: nat, s: Bytes)
    requires 0 <= 2 * n + Capacity(width) < 2 * Capacity(width)
    ensures RSigned(SignedBigEndian(n, width) + s, width) == Got(n, s)
  {
    SignedRoundTrip(n, width);
    UnsignedRoundTrip(n % Capacity(width), width, s);
    BigEndianRoundTrip(n % Capacity(width), width);
  }

  lemma FixedRoundTrip(b: Bytes, s: Bytes)
    ensures RFixed(b + s, |b|) == Got(b, s)
  {
    ConcatSplit(b, s, (b + s)[..|b|], (b + s)[|b|..]);
  }

  lemma VarRoundTrip(data: Bytes, s: Bytes)
    requires WVar(data).Some?
    ensures RVar(WVar(data).value + s) == Got(data, s)
    ensures Aligned(WVar(data).value)
  {
    var n, pad := |data|, Zeros(Pad(|data|));
    Assoc(BigEndian(n, 4), data + pad, s);
    Assoc(data, pad, s);
    UnsignedRoundTrip(n, 4, data + (pad + s));
    FixedRoundTrip(data, pad + s);
    FixedRoundTrip(pad, s);
    assert WVar(data).value + s == BigEndian(n, 4) + (data + (pad + s));
  }

  lemma AddressRoundTrip(key: Bytes, s: Bytes)
    requires WAddress(key).Some?
    ensures RAddress(WAddress(key).value + s) == Got(key, s)
    ensures Aligned(WAddress(key).value)
  {
    Strkey.EncodeDecode(key);
    WordCapacities();
    var (version, payload) := Strkey.Decode(key).value;
    FixedRoundTrip(payload, s);
    if version == Strkey.VERSION_ACCOUNT {
      Assoc(BigEndian(0, 4) + BigEndian(0, 4), payload, s);
      Assoc(BigEndian(0, 4), BigEndian(0, 4), payload + s);
      UnsignedRoundTrip(0, 4, BigEndian(0, 4) + (payload + s));
      UnsignedRoundTrip(0, 4, payload + s);
    } else {
      Assoc(BigEndian(1, 4), payload, s);
      UnsignedRoundTrip(1, 4, payload + s);
    }
  }

  lemma ExecutableRoundTrip(executable: Option<Bytes>, s: Bytes)
    requires executable.Some? ==> |executable.value| == 32
    ensures RExecutable(WExecutable(executable).value + s) == Got(executable, s)
    ensures Aligned(WExecutable(executable).value)
  {
    WordCapacities();
    match executable {
      case None =>
        UnsignedRoundTrip(1, 4, s);
      case Some(hash) =>
        Assoc(BigEndian(0, 4), hash, s);
        UnsignedRoundTrip(0, 4, hash + s);
        FixedRoundTrip(hash, s);
    }
  }

  /** Splitting into words and joining them again reduces modulo 2^128. */
  lemma WordsRoundTrip(n: int, s: Bytes)
    ensures R128(W128(n).value + s) == Got(n % TWO_128, s)
    ensures RSigned128(W128(n).value + s) == Got(Signed(n % TWO_128, TWO_128), s)
    ensures |W128(n).value| == 16
  {
    var hi, lo := (n / TWO_64) % TWO_64, n % TWO_64;
    WordCapacities();
    Assoc(BigEndian(hi, 8), BigEndian(lo, 8), s);
    UnsignedRoundTrip(hi, 8, BigEndian(lo, 8) + s);
    UnsignedRoundTrip(lo, 8, s);
    SplitModulo(n, TWO_64);
    JoinWords(hi, lo);
  }

  lemma SplitModulo(n: int, b: int)
    requires b > 0
    ensures n % (b * b) == ((n / b) % b) * b + n % b
  {
    var q, r := n / b, n % b;
    var q1, q0 := q / b, q % b;
    assert n == b * q + r && q == b * q1 + q0;
    AssembleWords(n, b, q, r, q1, q0);
    DivModUnique(n, b * b, q1, q0 * b + r);
  }

  lemma AssembleWords(n: int, b: int, q: int, r: int, q1: int, q0: int)
    requires b > 0 && n == b * q + r && q == b * q1 + q0 && 0 <= q0 < b && 0 <= r < b
    ensures n == (b * b) * q1 + (q0 * b + r) && 0 <= q0 * b + r < b * b
  {
    assert b * (b * q1 + q0) == (b * b) * q1 + q0 * b;
    MulMonotone(b, 0, q0);
    MulMonotone(b, q0, b - 1);
    assert b * (b - 1) == b * b - b;
  }

  /** The body reader undoes the body writer on `v`, whatever follows. */
  predicate BodyOk(v: Sc, s: Bytes)
    requires WriteBody(v).Some?
  {
    ReadBody(Tag(v), WriteBody(v).value + s) == Got(v, s) && Aligned(WriteBody(v).value)
  }

  lemma IntegerRoundTrip(v: Sc, s: Bytes)
    requires WriteBody(v).Some?
    requires v.ScBool? || v.ScU32? || v.ScI32? || v.ScU64? || v.ScI64? || v.ScTimepoint? || v.ScDuration?
    ensures BodyOk(v, s)
  {
    WordCapacities();
    match v {
      case ScBool(b) => UnsignedRoundTrip(if b then 1 else 0, 4, s);
      case ScU32(n) => UnsignedRoundTrip(n, 4, s);
      case ScI32(n) => SignedFieldRoundTrip(n, 4, s);
      case ScU64(n) => UnsignedRoundTrip(n, 8, s);
      case ScI64(n) => SignedFieldRoundTrip(n, 8, s);
      case ScTimepoint(n) => UnsignedRoundTrip(n, 8, s);
      case ScDuration(n) => UnsignedRoundTrip(n, 8, s);
    }
  }

  lemma ReduceInRange(n: int, c: int)
    requires c > 0
    ensures 0 <= n < c ==> n % c == n
    ensures 0 <= 2 * n + c < 2 * c ==> Signed(n % c, c) == n
  {
    if 0 <= n < c {
      DivModUnique(n, c, 0, n);
    } else if -c <= n < 0 {
      DivModUnique(n, c, -1, n + c);
    }
  }

  lemma U128RoundTrip(n: int, s: Bytes)
    requires 0 <= n < TWO_128
    ensures BodyOk(ScU128(n), s)
  {
    WordsRoundTrip(n, s);
    ReduceInRange(n, TWO_128);
    assert R128(W128(n).value + s) == Got(n, s);
    WideBody(ScU128(n), s);
  }

  /** Reading two words back is all there is to the two 128-bit kinds. */
  lemma WideBody(v: Sc, s: Bytes)
    requires v.ScU128? || v.ScI128?
    requires |W128(v.n).value| == 16
    requires if v.ScU128? then R128(W128(v.n).value + s) == Got(v.n, s) else RSigned128(W128(v.n).value + s) == Got(v.n, s)
    ensures BodyOk(v, s)
  {
  }

  lemma I128RoundTrip(n: int, s: Bytes)
    requires 0 <= 2 * n + TWO_128 < 2 * TWO_128
    ensures BodyOk(ScI128(n), s)
  {
    WordsRoundTrip(n, s);
    ReduceInRange(n, TWO_128);
    assert RSigned128(W128(n).value + s) == Got(n, s);
    WideBody(ScI128(n), s);
  }

  lemma BytesBody(data: Bytes, s: Bytes)
    requires WVar(data).Some?
    ensures BodyOk(ScBytes(data), s)
  {
    VarRoundTrip(data, s);
  }

  lemma StringBody(data: Bytes, s: Bytes)
    requires WVar(data).Some?
    ensures BodyOk(ScString(data), s)
  {
    VarRoundTrip(data, s);
  }

  lemma SymbolBody(data: Bytes, s: Bytes)
    requires WVar(data).Some?
    ensures BodyOk(ScSymbol(data), s)
  {
    VarRoundTrip(data, s);
  }

  lemma AddressBody(key: Bytes, s: Bytes)
    requires WAddress(key).Some?
    ensures WriteBody(ScAddress(key)) == WAddress(key) && BodyOk(ScAddress(key), s)
  {
    AddressRoundTrip(key, s);
  }

  lemma EmptyBody(v: Sc, s: Bytes)
    requires v.ScVoid? || v.ScLedgerKeyInstance?
    ensures WriteBody(v) == Some([]) && BodyOk(v, s)
  {
    assert [] + s == s;
  }

  /** What a present flag, a count and a list body are read back as. */
  lemma VecBody(items: seq<Sc>, body: Bytes, s: Bytes)
    requires |items| < Capacity(4) && Aligned(body) && ReadAll(body + s, |items|) == Got(items, s)
    ensures RVec(BigEndian(1, 4) + (BigEndian(|items|, 4) + body) + s) == Got(ScVec(items), s)
    ensures Aligned(BigEndian(1, 4) + (BigEndian(|items|, 4) + body))
  {
    CountedPrefix(|items|, body, s);
  }

  lemma MapBody(entries: seq<ScEntry>, body: Bytes, s: Bytes)
    requires |entries| < Capacity(4) && Aligned(body) && ReadEntries(body + s, |entries|) == Got(entries, s)
    ensures RMap(BigEndian(1, 4) + (BigEndian(|entries|, 4) + body) + s) == Got(ScMap(entries), s)
    ensures Aligned(BigEndian(1, 4) + (BigEndian(|entries|, 4) + body))
  {
    CountedPrefix(|entries|, body, s);
  }

  lemma InstanceBody(executable: Option<Bytes>, x: Bytes, storage: seq<ScEntry>, body: Bytes, s: Bytes)
    requires (executable.Some? ==> |executable.value| == 32) && WExecutable(executable) == Some(x)
    requires |storage| < Capacity(4) && Aligned(body) && ReadEntries(body + s, |storage|) == Got(storage, s)
    ensures var bs := x + (BigEndian(1, 4) + (BigEndian(|storage|, 4) + body));
            RInstance(bs + s) == Got(ScInstance(executable, storage), s) && Aligned(bs)
  {
    var tail := BigEndian(1, 4) + (BigEndian(|storage|, 4) + body);
    CountedPrefix(|storage|, body, s);
    Assoc(x, tail, s);
    ExecutableRoundTrip(executable, tail + s);
    AlignedConcat(x, tail);
  }

  lemma BareInstanceBody(executable: Option<Bytes>, x: Bytes, s: Bytes)
    requires (executable.Some? ==> |executable.value| == 32) && WExecutable(executable) == Some(x)
    ensures RInstance(x + BigEndian(0, 4) + s) == Got(ScBareInstance(executable), s)
    ensures Aligned(x + BigEndian(0, 4))
  {
    WordCapacities();
    Assoc(x, BigEndian(0, 4), s);
    ExecutableRoundTrip(executable, BigEndian(0, 4) + s);
    UnsignedRoundTrip(0, 4, s);
    AlignedConcat(x, BigEndian(0, 4));
  }

  lemma {:induction false} VecRoundTrip(items: seq<Sc>, s: Bytes)
    requires WriteBody(ScVec(items)).Some? && forall i :: 0 <= i < |items| ==> Canonical(items[i])
    ensures BodyOk(ScVec(items), s)
    decreases items, 1
  {
    AllRoundTrip(items, s);
    VecBody(items, WriteAll(items).value, s);
  }

  lemma {:induction false} MapRoundTrip(entries: seq<ScEntry>, s: Bytes)
    requires WriteBody(ScMap(entries)).Some? && forall i :: 0 <= i < |entries| ==> CanonicalEntry(entries[i])
    ensures BodyOk(ScMap(entries), s)
    decreases entries, 1
  {
    EntriesRoundTrip(entries, s);
    MapBody(entries, WriteEntries(entries).value, s);
  }

  lemma {:induction false} InstanceRoundTrip(executable: Option<Bytes>, storage: seq<ScEntry>, s: Bytes)
    requires WriteBody(ScInstance(executable, storage)).Some? && (executable.Some? ==> |executable.value| == 32)
    requires forall i :: 0 <= i < |storage| ==> CanonicalEntry(storage[i])
    ensures BodyOk(ScInstance(executable, storage), s)
    decreases storage, 1
  {
    var x, body := WExecutable(executable).value, WriteEntries(storage).value;
    assert WriteBody(ScInstance(executable, storage))
        == Some(x + (BigEndian(1, 4) + (BigEndian(|storage|, 4) + body)));
    EntriesRoundTrip(storage, s);
    InstanceBody(executable, x, storage, body, s);
  }

  lemma {:induction false} BodyRoundTrip(v: Sc, s: Bytes)
    requires WriteBody(v).Some? && Canonical(v)
    ensures BodyOk(v, s)
    decreases v, 0
  {
    match v {
      case ScVec(items) => VecRoundTrip(items, s);
      case ScMap(entries) => MapRoundTrip(entries, s);
      case ScInstance(executable, storage) => InstanceRoundTrip(executable, storage, s);
      case ScBareInstance(executable) => BareInstanceBody(executable, WExecutable(executable).value, s);
      case ScU128(n) => U128RoundTrip(n, s);
      case ScI128(n) => I128RoundTrip(n, s);
      case ScBytes(data) => BytesBody(data, s);
      case ScString(data) => StringBody(data, s);
      case ScSymbol(data) => SymbolBody(data, s);
      case ScAddress(key) => AddressBody(key, s);
      case ScVoid => EmptyBody(v, s);
      case ScLedgerKeyInstance => EmptyBody(v, s);
      case _ => IntegerRoundTrip(v, s);
    }
  }

  /** The present flag and the element count in front of a list. */
  lemma CountedPrefix(n: nat, body: Bytes, s: Bytes)
    requires n < Capacity(4) && Aligned(body)
    ensures Aligned(BigEndian(1, 4) + (BigEndian(n, 4) + body))
    ensures var bs := BigEndian(1, 4) + (BigEndian(n, 4) + body) + s;
            && RUnsigned(bs, 4) == Got(1, BigEndian(n, 4) + (body + s))
            && RUnsigned(BigEndian(n, 4) + (body + s), 4) == Got(n, body + s)
  {
    WordCapacities();
    Assoc(BigEndian(1, 4), BigEndian(n, 4) + body, s);
    Assoc(BigEndian(n, 4), body, s);
    UnsignedRoundTrip(1, 4, BigEndian(n, 4) + (body + s));
    UnsignedRoundTrip(n, 4, body + s);
  }

  /** Reading what was written returns the value and stops exactly at the suffix. */
  lemma {:induction false} RoundTrip(v: Sc, s: Bytes)
    requires Write(v).Some? && Canonical(v)
    ensures Read(Write(v).value + s) == Got(v, s)
    ensures Aligned(Write(v).value)
    decreases v, 1
  {
    WordCapacities();
    var body := WriteBody(v).value;
    Assoc(BigEndian(Tag(v), 4), body, s);
    UnsignedRoundTrip(Tag(v), 4, body + s);
    BodyRoundTrip(v, s);
    AlignedConcat(BigEndian(Tag(v), 4), body);
  }

  lemma {:induction false} AllRoundTrip(items: seq<Sc>, s: Bytes)
    requires WriteAll(items).Some? && forall i :: 0 <= i < |items| ==> Canonical(items[i])
    ensures ReadAll(WriteAll(items).value + s, |items|) == Got(items, s)
    ensures Aligned(WriteAll(items).value)
    decreases items, 0
  {
    if items == [] {
      assert [] + s == s;
    } else {
      var rest := WriteAll(items[1..]).value;
      Assoc(Write(items[0]).value, rest, s);
      RoundTrip(items[0], rest + s);
      AllRoundTrip(items[1..], s);
      AlignedConcat(Write(items[0]).value, rest);
      assert items == [items[0]] + items[1..];
    }
  }

  lemma {:induction false} EntryRoundTrip(e: ScEntry, s: Bytes)
    requires WriteEntry(e).Some? && CanonicalEntry(e)
    ensures var bs := WriteEntry(e).value + s;
            Read(bs) == Got(e.key, Write(e.val).value + s) && Read(Write(e.val).value + s) == Got(e.val, s)
    ensures Aligned(WriteEntry(e).value)
    decreases e, 2
  {
    Assoc(Write(e.key).value, Write(e.val).value, s);
    RoundTrip(e.key, Write(e.val).value + s);
    RoundTrip(e.val, s);
    AlignedConcat(Write(e.key).value, Write(e.val).value);
  }

  lemma {:induction false} EntriesRoundTrip(entries: seq<ScEntry>, s: Bytes)
    requires WriteEntries(entries).Some? && forall i :: 0 <= i < |entries| ==> CanonicalEntry(entries[i])
    ensures ReadEntries(WriteEntries(entries).value + s, |entries|) == Got(entries, s)
    ensures Aligned(WriteEntries(entries).value)
    decreases entries, 0
  {
    if entries == [] {
      assert [] + s == s;
    } else {
      var rest := WriteEntries(entries[1..]).value;
      Assoc(WriteEntry(entries[0]).value, rest, s);
      EntryRoundTrip(entries[0], rest + s);
      EntriesRoundTrip(entries[1..], s);
      AlignedConcat(WriteEntry(entries[0]).value, rest);
      assert entries == [entries[0]] + entries[1..];
    }
  }

  // ---------------------------------------------------------------------
  // What the reader can return
  // ---------------------------------------------------------------------

  /** Whatever bytes it is given, the reader only ever returns canonical values. */
  lemma {:induction false} ReadIsCanonical(bs: Bytes)
    requires Read(bs).Got?
    ensures Canonical(Read(bs).value)
    decreases |bs|, 2
  {
    var head := RUnsigned(bs, 4);
    BodyIsCanonical(head.value, head.rest);
  }

  lemma {:induction false} BodyIsCanonical(t: int, bs: Bytes)
    requires ReadBody(t, bs).Got?
    ensures Canonical(ReadBody(t, bs).value)
    decreases |bs|, 1
  {
    if t == 16 {
      VecIsCanonical(bs);
    } else if t == 17 {
      MapIsCanonical(bs);
    } else if t == 19 {
      InstanceIsCanonical(bs);
    }
  }

  lemma {:induction false} VecIsCanonical(bs: Bytes)
    requires RVec(bs).Got?
    ensures Canonical(RVec(bs).value)
    decreases |bs|, 0
  {
    var flag := RUnsigned(bs, 4);
    if flag.value != 0 {
      var n := RUnsigned(flag.rest, 4);
      AllAreCanonical(n.rest, n.value);
    }
  }

  lemma {:induction false} MapIsCanonical(bs: Bytes)
    requires RMap(bs).Got?
    ensures Canonical(RMap(bs).value)
    decreases |bs|, 0
  {
    var flag := RUnsigned(bs, 4);
    if flag.value != 0 {
      var n := RUnsigned(flag.rest, 4);
      EntriesAreCanonical(n.rest, n.value);
    }
  }

  lemma {:induction false} InstanceIsCanonical(bs: Bytes)
    requires RInstance(bs).Got?
    ensures Canonical(RInstance(bs).value)
    decreases |bs|, 0
  {
    var x := RExecutable(bs);
    var flag := RUnsigned(x.rest, 4);
    if flag.value != 0 {
      var n := RUnsigned(flag.rest, 4);
      EntriesAreCanonical(n.rest, n.value);
    }
  }

  lemma {:induction false} AllAreCanonical(bs: Bytes, n: nat)
    requires ReadAll(bs, n).Got?
    ensures forall i :: 0 <= i < n ==> Canonical(ReadAll(bs, n).value[i])
    decreases |bs|, 3
  {
    if n > 0 {
      ReadIsCanonical(bs);
      AllAreCanonical(Read(bs).rest, n - 1);
    }
  }

  lemma {:induction false} EntriesAreCanonical(bs: Bytes, n: nat)
    requires ReadEntries(bs, n).Got?
    ensures forall i :: 0 <= i < n ==> CanonicalEntry(ReadEntries(bs, n).value[i])
    decreases |bs|, 3
  {
    if n > 0 {
      ReadIsCanonical(bs);
      ReadIsCanonical(Read(bs).rest);
      EntriesAreCanonical(Read(Read(bs).rest).rest, n - 1);
    }
  }

  /** A writable value survives the trip, whatever follows it, if and only if it is canonical. */
  lemma RoundTripExactly(v: Sc, s: Bytes)
    requires Write(v).Some?
    ensures Read(Write(v).value + s) == Got(v, s) <==> Canonical(v)
  {
    if Canonical(v) {
      RoundTrip(v, s);
    } else if Read(Write(v).value + s).Got? {
      ReadIsCanonical(Write(v).value + s);
    }
  }

  /** No encoding is a proper prefix of another, so encodings are injective in any context. */
  lemma WritePrefixFree(v: Sc, w: Sc, s: Bytes, t: Bytes)
    requires Write(v).Some? && Write(w).Some? && Canonical(v) && Canonical(w)
    requires Write(v).value + s == Write(w).value + t
    ensures v == w && s == t
  {
    RoundTrip(v, s);
    RoundTrip(w, t);
  }

  // ---------------------------------------------------------------------
  // Ledger keys and contract-data entries
  // ---------------------------------------------------------------------

  datatype Durability = Temporary | Persistent

  const CONTRACT_DATA: nat := 6

  function DurabilityCode(d: Durability): nat {
    if d.Temporary? then 0 else 1
  }

  function EncodeLedgerKey(contract: Bytes, key: Sc, durability: Durability): Option<Bytes> {
    Join(Some(BigEndian(CONTRACT_DATA, 4)),
         Join(WAddress(contract), Join(Write(key), Some(BigEndian(DurabilityCode(durability), 4)))))
  }

  function EncodeContractData(contract: Bytes, key: Sc, durability: Durability, val: Sc): Option<Bytes> {
    Join(Some(BigEndian(CONTRACT_DATA, 4)),
         Join(Some(BigEndian(0, 4)),
              Join(WAddress(contract),
                   Join(Write(key), Join(Some(BigEndian(DurabilityCode(durability), 4)), Write(val))))))
  }

  datatype Data = Data(contract: Bytes, key: Sc, durability: Option<Durability>, val: Sc)

  function DecodeContractData(bs: Bytes): Option<Data> {
    match RUnsigned(bs, 4)
    case Fail => None
    case Got(kind, r1) =>
      if kind != CONTRACT_DATA then None
      else
        match RUnsigned(r1, 4)
        case Fail => None
        case Got(ext, r2) =>
          if ext != 0 then None
          else
            match RAddress(r2)
            case Fail => None
            case Got(contract, r3) =>
              match Read(r3)
              case Fail => None
              case Got(key, r4) =>
                match RUnsigned(r4, 4)
                case Fail => None
                case Got(code, r5) =>
                  match Read(r5)
                  case Fail => None
                  case Got(val, r6) =>
                    if r6 != [] then None
                    else
                      var durability := if code == 0 then Some(Temporary) else if code == 1 then Some(Persistent) else None;
                      Some(Data(contract, key, durability, val))
  }

  lemma ContractDataRoundTrip(contract: Bytes, key: Sc, durability: Durability, val: Sc)
    requires EncodeContractData(contract, key, durability, val).Some? && Canonical(key) && Canonical(val)
    ensures DecodeContractData(EncodeContractData(contract, key, durability, val).value)
         == Some(Data(contract, key, Some(durability), val))
  {
    WordCapacities();
    var d, v := BigEndian(DurabilityCode(durability), 4), Write(val).value;
    var k, a := Write(key).value, WAddress(contract).value;
    UnsignedRoundTrip(CONTRACT_DATA, 4, BigEndian(0, 4) + (a + (k + (d + v))));
    UnsignedRoundTrip(0, 4, a + (k + (d + v)));
    AddressRoundTrip(contract, k + (d + v));
    RoundTrip(key, d + v);
    UnsignedRoundTrip(DurabilityCode(durability), 4, v);
    RoundTrip(val, []);
    assert v + [] == v;
    FieldsDecode(EncodeContractData(contract, key, durability, val).value,
                 BigEndian(0, 4) + (a + (k + (d + v))), a + (k + (d + v)), k + (d + v), d + v, v,
                 contract, key, durability, val);
  }

  /** Reading the fields one after the other decodes the entry. */
  lemma FieldsDecode(bs: Bytes, r1: Bytes, r2: Bytes, r3: Bytes, r4: Bytes, r5: Bytes,
                     contract: Bytes, key: Sc, durability: Durability, val: Sc)
    requires RUnsigned(bs, 4) == Got(CONTRACT_DATA, r1) && RUnsigned(r1, 4) == Got(0, r2)
    requires RAddress(r2) == Got(contract, r3) && Read(r3) == Got(key, r4)
    requires RUnsigned(r4, 4) == Got(DurabilityCode(durability), r5) && Read(r5) == Got(val, [])
    ensures DecodeContractData(bs) == Some(Data(contract, key, Some(durability), val))
  {
  }

  /** Different storage keys never share a ledger key. */
  lemma LedgerKeyInjective(c: Bytes, k: Sc, d: Durability, c': Bytes, k': Sc, d': Durability)
    requires EncodeLedgerKey(c, k, d).Some? && EncodeLedgerKey(c, k, d) == EncodeLedgerKey(c', k', d')
    requires Canonical(k) && Canonical(k')
    ensures c == c' && k == k' && d == d'
  {
    WordCapacities();
    var e, e' := BigEndian(DurabilityCode(d), 4), BigEndian(DurabilityCode(d'), 4);
    var a, a' := WAddress(c).value, WAddress(c').value;
    var w, w' := Write(k).value, Write(k').value;
    ConcatSplit(BigEndian(CONTRACT_DATA, 4), a + (w + e), BigEndian(CONTRACT_DATA, 4), a' + (w' + e'));
    AddressRoundTrip(c, w + e);
    AddressRoundTrip(c', w' + e');
    WritePrefixFree(k, k', e, e');
    BigEndianRoundTrip(DurabilityCode(d), 4);
    BigEndianRoundTrip(DurabilityCode(d'), 4);
  }

  // ---------------------------------------------------------------------
  // The writer and the reader as objects
  // ---------------------------------------------------------------------

  function Flatten(parts: seq<Bytes>): Bytes {
    if parts == [] then [] else Flatten(parts[..|parts| - 1]) + parts[|parts| - 1]
  }

  class Writer {
    var parts: seq<Bytes>

    constructor ()
      ensures Content() == []
    {
      parts := [];
    }

    function Content(): Bytes
      reads this
    {
      Flatten(parts)
    }

    /** Appends one part, or refuses where packing raises. */
    method Append(part: Option<Bytes>) returns (ok: bool)
      modifies this
      ensures ok <==> part.Some?
      ensures Content() == if ok then old(Content()) + part.value else old(Content())
    {
      if part.None? {
        return false;
      }
      assert (parts + [part.value])[..|parts|] == parts;
      parts := parts + [part.value];
      return true;
    }

    method U32(n: int) returns (ok: bool)
      modifies this
      ensures ok <==> WUnsigned(n, 4).Some?
      ensures ok ==> Content() == old(Content()) + WUnsigned(n, 4).value
    {
      ok := Append(WUnsigned(n, 4));
    }

    method I32(n: int) returns (ok: bool)
      modifies this
      ensures ok <==> WSigned(n, 4).Some?
      ensures ok ==> Content() == old(Content()) + WSigned(n, 4).value
    {
      ok := Append(WSigned(n, 4));
    }

    method U64(n: int) returns (ok: bool)
      modifies this
      ensures ok <==> WUnsigned(n, 8).Some?
      ensures ok ==> Content() == old(Content()) + WUnsigned(n, 8).value
    {
      ok := Append(WUnsigned(n, 8));
    }

    method I64(n: int) returns (ok: bool)
      modifies this
      ensures ok <==> WSigned(n, 8).Some?
      ensures ok ==> Content() == old(Content()) + WSigned(n, 8).value
    {
      ok := Append(WSigned(n, 8));
    }

    method Fixed(bytes: Bytes)
      modifies this
      ensures Content() == old(Content()) + bytes
    {
      var ok := Append(Some(bytes));
    }

    /** Length, then the data with its padding. */
    method Var(bytes: Bytes) returns (ok: bool)
      modifies this
      ensures ok <==> WVar(bytes).Some?
      ensures ok ==> Content() == old(Content()) + WVar(bytes).value
    {
      ghost var start := Content();
      ok := U32(|bytes|);
      if !ok {
        return;
      }
      var padded := bytes + Zeros(Pad(|bytes|));
      Fixed(padded);
      Assoc(start, BigEndian(|bytes|, 4), padded);
    }
  }

  /** The writer has gained exactly `part`, or packing `part` raises. */
  twostate predicate Wrote(w: Writer, ok: bool, part: Option<Bytes>)
    reads w
  {
    (ok <==> part.Some?) && (ok ==> w.Content() == old(w.Content()) + part.value)
  }

  method WriteAddress(w: Writer, key: Bytes) returns (ok: bool)
    modifies w
    ensures Wrote(w, ok, WAddress(key))
  {
    var decoded := Strkey.Decode(key);
    if decoded.None? {
      return false;
    }
    var (version, payload) := decoded.value;
    ghost var start := w.Content();
    WordCapacities();
    if version == Strkey.VERSION_ACCOUNT {
      var a := w.U32(0);
      var b := w.U32(0);
      ok := true;
      w.Fixed(payload);
      Assoc(start, BigEndian(0, 4), BigEndian(0, 4));
      Assoc(start, BigEndian(0, 4) + BigEndian(0, 4), payload);
    } else if version == Strkey.VERSION_CONTRACT {
      var a := w.U32(1);
      ok := true;
      w.Fixed(payload);
      Assoc(start, BigEndian(1, 4), payload);
    } else {
      return false;
    }
  }

  /** The unsigned high and low words. */
  method WriteU128(w: Writer, n: int) returns (ok: bool)
    modifies w
    ensures Wrote(w, ok, W128(n))
  {
    ghost var start := w.Content();
    var hi, lo := (n / TWO_64) % TWO_64, n % TWO_64;
    WordCapacities();
    var high := w.U64(hi);
    ok := w.U64(lo);
    Assoc(start, BigEndian(hi, 8), BigEndian(lo, 8));
  }

  /** The value is reduced to 128 bits first, and its high word is written as a signed one. */
  method WriteI128(w: Writer, n: int) returns (ok: bool)
    modifies w
    ensures Wrote(w, ok, W128(n))
  {
    ghost var start := w.Content();
    var m := n % TWO_128;
    var hi, lo := (m / TWO_64) % TWO_64, m % TWO_64;
    WordCapacities();
    ReducedWords(n);
    var signed := if hi >= TWO_64 / 2 then hi - TWO_64 else hi;
    var high := w.I64(signed);
    ok := w.U64(lo);
    DivModUnique(signed, TWO_64, if hi >= TWO_64 / 2 then -1 else 0, hi);
    Assoc(start, BigEndian(hi, 8), BigEndian(lo, 8));
  }

  /** Reducing to 128 bits first changes neither word. */
  lemma ReducedWords(n: int)
    ensures var m := n % TWO_128;
            (m / TWO_64) % TWO_64 == (n / TWO_64) % TWO_64 && m % TWO_64 == n % TWO_64
  {
    var hi, lo := (n / TWO_64) % TWO_64, n % TWO_64;
    SplitModulo(n, TWO_64);
    DivModUnique(n % TWO_128, TWO_64, hi, lo);
    DivModUnique(hi, TWO_64, 0, hi);
  }

  /** The kinds that hold no other values. */
  method WriteScalar(w: Writer, v: Sc) returns (ok: bool)
    requires !v.ScVec? && !v.ScMap? && !v.ScAddress? && !v.ScInstance? && !v.ScBareInstance?
    modifies w
    ensures Wrote(w, ok, WriteBody(v))
  {
    ok := true;
    match v {
      case ScBool(b) => ok := w.U32(if b then 1 else 0);
      case ScVoid =>
      case ScLedgerKeyInstance =>
      case ScU32(n) => ok := w.U32(n);
      case ScI32(n) => ok := w.I32(n);
      case ScU64(n) => ok := w.U64(n);
      case ScTimepoint(n) => ok := w.U64(n);
      case ScDuration(n) => ok := w.U64(n);
      case ScI64(n) => ok := w.I64(n);
      case ScU128(n) => ok := WriteU128(w, n);
      case ScI128(n) => ok := WriteI128(w, n);
      case ScBytes(data) => ok := w.Var(data);
      case ScString(data) => ok := w.Var(data);
      case ScSymbol(data) => ok := w.Var(data);
      case _ => ok := false;
    }
    assert w.Content() + [] == w.Content();
  }

  method WriteExecutable(w: Writer, executable: Option<Bytes>)
    modifies w
    ensures w.Content() == old(w.Content()) + WExecutable(executable).value
  {
    ghost var start := w.Content();
    WordCapacities();
    if executable.None? {
      var a := w.U32(1);
    } else {
      var a := w.U32(0);
      w.Fixed(executable.value);
      Assoc(start, BigEndian(0, 4), executable.value);
    }
  }

  method WriteBareInstance(w: Writer, executable: Option<Bytes>) returns (ok: bool)
    modifies w
    ensures Wrote(w, ok, WriteBody(ScBareInstance(executable)))
  {
    ghost var start := w.Content();
    WordCapacities();
    WriteExecutable(w, executable);
    ok := w.U32(0);
    Assoc(start, WExecutable(executable).value, BigEndian(0, 4));
  }

  method WriteVec(w: Writer, items: seq<Sc>) returns (ok: bool)
    modifies w
    ensures Wrote(w, ok, WriteBody(ScVec(items)))
    decreases items, 2
  {
    ghost var start := w.Content();
    WordCapacities();
    ok := w.U32(1);
    ok := w.U32(|items|);
    if !ok {
      return;
    }
    ok := WriteItems(w, items);
    if ok {
      CountParts(start, |items|, WriteAll(items).value);
    }
  }

  method WriteMap(w: Writer, entries: seq<ScEntry>) returns (ok: bool)
    modifies w
    ensures Wrote(w, ok, WriteBody(ScMap(entries)))
    decreases entries, 2
  {
    ghost var start := w.Content();
    WordCapacities();
    ok := w.U32(1);
    ok := w.U32(|entries|);
    if !ok {
      return;
    }
    ok := WritePairs(w, entries);
    if ok {
      CountParts(start, |entries|, WriteEntries(entries).value);
    }
  }

  method WriteScval(w: Writer, v: Sc) returns (ok: bool)
    modifies w
    ensures Wrote(w, ok, Write(v))
    decreases v, 1
  {
    ghost var start := w.Content();
    WordCapacities();
    ok := w.U32(Tag(v));
    ok := WritePayload(w, v);
    if ok {
      Assoc(start, BigEndian(Tag(v), 4), WriteBody(v).value);
    }
  }

  method WritePayload(w: Writer, v: Sc) returns (ok: bool)
    modifies w
    ensures Wrote(w, ok, WriteBody(v))
    decreases v, 0
  {
    match v {
      case ScVec(items) =>
        ok := WriteVec(w, items);
      case ScMap(entries) =>
        ok := WriteMap(w, entries);
      case ScAddress(key) =>
        ok := WriteAddress(w, key);
      case ScInstance(executable, storage) =>
        ok := WriteInstance(w, executable, storage);
      case ScBareInstance(executable) =>
        ok := WriteBareInstance(w, executable);
      case _ =>
        ok := WriteScalar(w, v);
    }
  }

  method WriteInstance(w: Writer, executable: Option<Bytes>, storage: seq<ScEntry>) returns (ok: bool)
    modifies w
    ensures Wrote(w, ok, WriteBody(ScInstance(executable, storage)))
    decreases storage, 2
  {
    ghost var start := w.Content();
    WordCapacities();
    ghost var x := WExecutable(executable).value;
    WriteExecutable(w, executable);
    ok := w.U32(1);
    ok := w.U32(|storage|);
    if !ok {
      return;
    }
    ok := WritePairs(w, storage);
    if ok {
      ghost var body := WriteEntries(storage).value;
      CountParts(start + x, |storage|, body);
      Assoc(start, x, BigEndian(1, 4) + (BigEndian(|storage|, 4) + body));
    }
  }

  lemma CountParts(start: Bytes, n: nat, body: Bytes)
    ensures start + BigEndian(1, 4) + BigEndian(n, 4) + body == start + (BigEndian(1, 4) + (BigEndian(n, 4) + body))
  {
  }

  method WriteItems(w: Writer, items: seq<Sc>) returns (ok: bool)
    modifies w
    ensures Wrote(w, ok, WriteAll(items))
    decreases items, 1
  {
    ghost var start := w.Content();
    assert items[0..] == items;
    for i := 0 to |items|
      invariant WriteAll(items).Some? <==> WriteAll(items[i..]).Some?
      invariant WriteAll(items).Some? ==> start + WriteAll(items).value == w.Content() + WriteAll(items[i..]).value
    {
      assert items[i..][1..] == items[i + 1..];
      ghost var before := w.Content();
      ok := WriteScval(w, items[i]);
      if !ok {
        return;
      }
      if WriteAll(items).Some? {
        Assoc(before, Write(items[i]).value, WriteAll(items[i + 1..]).value);
      }
    }
    return true;
  }

  method WritePairs(w: Writer, entries: seq<ScEntry>) returns (ok: bool)
    modifies w
    ensures Wrote(w, ok, WriteEntries(entries))
    decreases entries, 1
  {
    ghost var start := w.Content();
    assert entries[0..] == entries;
    for i := 0 to |entries|
      invariant WriteEntries(entries).Some? <==> WriteEntries(entries[i..]).Some?
      invariant WriteEntries(entries).Some? ==>
                  start + WriteEntries(entries).value == w.Content() + WriteEntries(entries[i..]).value
    {
      assert entries[i..][1..] == entries[i + 1..];
      ghost var before := w.Content();
      ok := WritePair(w, entries[i]);
      if !ok {
        return;
      }
      if WriteEntries(entries).Some? {
        Assoc(before, WriteEntry(entries[i]).value, WriteEntries(entries[i + 1..]).value);
      }
    }
    return true;
  }

  method WritePair(w: Writer, e: ScEntry) returns (ok: bool)
    modifies w
    ensures Wrote(w, ok, WriteEntry(e))
    decreases e, 2
  {
    ghost var start := w.Content();
    ok := WriteScval(w, e.key);
    if !ok {
      return;
    }
    ok := WriteScval(w, e.val);
    if ok {
      Assoc(start, Write(e.key).value, Write(e.val).value);
    }
  }

  class Reader {
    const data: Bytes
    var pos: nat

    constructor (data: Bytes)
      ensures this.data == data && Valid() && Rest() == data
    {
      this.data := data;
      pos := 0;
    }

    predicate Valid()
      reads this
    {
      pos <= |data|
    }

    /** The bytes not consumed yet. */
    function Rest(): Bytes
      requires Valid()
      reads this
    {
      data[pos..]
    }

    method Take(n: nat) returns (r: Option<Bytes>)
      requires Valid()
      modifies this
      ensures Valid() && Agrees(r, RFixed(old(Rest()), n), Rest())
    {
      if pos + n > |data| {
        return None;
      }
      r := Some(data[pos..pos + n]);
      assert data[pos..][..n] == data[pos..pos + n];
      assert data[pos..][n..] == data[pos + n..];
      pos := pos + n;
    }

    method Unsigned(width: nat) returns (r: Option<int>)
      requires Valid()
      modifies this
      ensures Valid() && Agrees(r, RUnsigned(old(Rest()), width), Rest())
    {
      var b := Take(width);
      if b.None? {
        return None;
      }
      return Some(FromBigEndian(b.value));
    }

    method SignedInt(width: nat) returns (r: Option<int>)
      requires Valid()
      modifies this
      ensures Valid() && Agrees(r, RSigned(old(Rest()), width), Rest())
    {
      var n := Unsigned(width);
      if n.None? {
        return None;
      }
      return Some(Signed(n.value, Capacity(width)));
    }

    method Var() returns (r: Option<Bytes>)
      requires Valid()
      modifies this
      ensures Valid() && Agrees(r, RVar(old(Rest())), Rest())
    {
      var n := Unsigned(4);
      if n.None? {
        return None;
      }
      r := Take(n.value);
      if r.None? {
        return;
      }
      var pad := Take(Pad(n.value));
      if pad.None? {
        return None;
      }
    }

    method Address() returns (r: Option<Bytes>)
      requires Valid()
      modifies this
      ensures Valid() && Agrees(r, RAddress(old(Rest())), Rest())
    {
      var kind := Unsigned(4);
      if kind.None? {
        return None;
      }
      if kind.value == 0 {
        var keyType := Unsigned(4);
        if keyType.None? || keyType.value != 0 {
          return None;
        }
        var payload := Take(32);
        return if payload.None? then None else Some(Strkey.Encode(Strkey.VERSION_ACCOUNT, payload.value));
      }
      if kind.value == 1 {
        var payload := Take(32);
        return if payload.None? then None else Some(Strkey.Encode(Strkey.VERSION_CONTRACT, payload.value));
      }
      return None;
    }

    method Executable() returns (r: Option<Option<Bytes>>)
      requires Valid()
      modifies this
      ensures Valid() && Agrees(r, RExecutable(old(Rest())), Rest())
    {
      var kind := Unsigned(4);
      if kind.None? {
        return None;
      }
      if kind.value == 0 {
        var hash := Take(32);
        return if hash.None? then None else Some(hash);
      }
      return Some(None);
    }

    method Unsigned128() returns (r: Option<int>)
      requires Valid()
      modifies this
      ensures Valid() && Agrees(r, R128(old(Rest())), Rest())
    {
      var hi := Unsigned(8);
      if hi.None? {
        return None;
      }
      var lo := Unsigned(8);
      if lo.None? {
        return None;
      }
      return Some(Or(hi.value * TWO_64, lo.value));
    }

    method Signed128() returns (r: Option<int>)
      requires Valid()
      modifies this
      ensures Valid() && Agrees(r, RSigned128(old(Rest())), Rest())
    {
      var hi := SignedInt(8);
      if hi.None? {
        return None;
      }
      var lo := Unsigned(8);
      if lo.None? {
        return None;
      }
      return Some(hi.value * TWO_64 + lo.value);
    }

    method Unsigned256() returns (r: Option<int>)
      requires Valid()
      modifies this
      ensures Valid() && Agrees(r, R256(old(Rest())), Rest())
    {
      var hi := Unsigned128();
      if hi.None? {
        return None;
      }
      var lo := Unsigned128();
      return if lo.None? then None else Some(hi.value * TWO_128 + lo.value);
    }

    method Signed256() returns (r: Option<int>)
      requires Valid()
      modifies this
      ensures Valid() && Agrees(r, RSigned256(old(Rest())), Rest())
    {
      var hi := Signed128();
      if hi.None? {
        return None;
      }
      var lo := Unsigned128();
      return if lo.None? then None else Some(hi.value * TWO_128 + lo.value);
    }
  }

  /** A method's result and the bytes it left unread are what the reading function says. */
  predicate Agrees<T(==)>(r: Option<T>, p: Parsed<T>, rest: Bytes) {
    (r.None? <==> p.Fail?) && (r.Some? ==> p == Got(r.value, rest))
  }

  /** One integer, opaque or address value, or None for another kind or a failure. */
  method ReadPlain(r: Reader, t: int) returns (v: Option<Sc>)
    requires r.Valid()
    modifies r
    ensures r.Valid() && Agrees(v, ReadScalar(t, old(r.Rest())), r.Rest())
  {
    if t in {0, 3, 5, 7, 8} {
      var n := r.Unsigned(if t in {0, 3} then 4 else 8);
      if n.None? {
        return None;
      }
      return Some(if t == 0 then ScBool(n.value != 0) else if t == 3 then ScU32(n.value)
                  else if t == 5 then ScU64(n.value) else if t == 7 then ScTimepoint(n.value)
                  else ScDuration(n.value));
    }
    if t in {4, 6, 21} {
      var n := r.SignedInt(if t == 4 then 4 else 8);
      if n.None? {
        return None;
      }
      return Some(if t == 4 then ScI32(n.value) else if t == 6 then ScI64(n.value) else ScNonce(n.value));
    }
    if t in {13, 14, 15} {
      var d := r.Var();
      if d.None? {
        return None;
      }
      return Some(if t == 13 then ScBytes(d.value) else if t == 14 then ScString(d.value) else ScSymbol(d.value));
    }
    if t in {9, 10, 11, 12} {
      v := ReadWide(r, t);
      return;
    }
    v := ReadOther(r, t);
  }

  method ReadOther(r: Reader, t: int) returns (v: Option<Sc>)
    requires r.Valid() && t !in {0, 3, 5, 7, 8} + {4, 6, 21} + {13, 14, 15} + {9, 10, 11, 12}
    modifies r
    ensures r.Valid() && Agrees(v, ReadScalar(t, old(r.Rest())), r.Rest())
  {
    if t == 18 {
      var k := r.Address();
      return if k.None? then None else Some(ScAddress(k.value));
    }
    if t == 1 {
      return Some(ScVoid);
    }
    if t == 20 {
      return Some(ScLedgerKeyInstance);
    }
    if t == 2 {
      var kind := r.Unsigned(4);
      if kind.None? {
        return None;
      }
      var code := r.Unsigned(4);
      return if code.None? then None else Some(ScError(kind.value, code.value));
    }
    return None;
  }

  method ReadWide(r: Reader, t: int) returns (v: Option<Sc>)
    requires r.Valid() && t in {9, 10, 11, 12}
    modifies r
    ensures r.Valid() && Agrees(v, RWideKind(t, old(r.Rest())), r.Rest())
  {
    var n: Option<int>;
    if t == 9 {
      n := r.Unsigned128();
    } else if t == 10 {
      n := r.Signed128();
    } else if t == 11 {
      n := r.Unsigned256();
    } else {
      n := r.Signed256();
    }
    if n.None? {
      return None;
    }
    return Some(if t == 9 then ScU128(n.value) else if t == 10 then ScI128(n.value)
                else if t == 11 then ScU256(n.value) else ScI256(n.value));
  }

  method ReadScval(r: Reader) returns (v: Option<Sc>)
    requires r.Valid()
    modifies r
    ensures r.Valid() && Agrees(v, Read(old(r.Rest())), r.Rest())
    decreases |r.data| - r.pos, 2
  {
    var t := r.Unsigned(4);
    if t.None? {
      return None;
    }
    v := ReadPayload(r, t.value);
  }

  method ReadPayload(r: Reader, t: int) returns (v: Option<Sc>)
    requires r.Valid()
    modifies r
    ensures r.Valid() && Agrees(v, ReadBody(t, old(r.Rest())), r.Rest())
    decreases |r.data| - r.pos, 1
  {
    if t != 16 && t != 17 && t != 19 {
      v := ReadPlain(r, t);
      return;
    }
    var executable: Option<Option<Bytes>> := None;
    if t == 19 {
      executable := r.Executable();
      if executable.None? {
        return None;
      }
    }
    var flag := r.Unsigned(4);
    if flag.None? {
      return None;
    }
    if flag.value == 0 {
      return Some(if t == 16 then ScNoVec else if t == 17 then ScNoMap else ScBareInstance(executable.value));
    }
    var n := r.Unsigned(4);
    if n.None? {
      return None;
    }
    if t == 16 {
      var items := ReadItems(r, n.value);
      return if items.None? then None else Some(ScVec(items.value));
    }
    var entries := ReadPairs(r, n.value);
    return if entries.None? then None
           else if t == 17 then Some(ScMap(entries.value))
           else Some(ScInstance(executable.value, entries.value));
  }

  method ReadItems(r: Reader, n: nat) returns (items: Option<seq<Sc>>)
    requires r.Valid()
    modifies r
    ensures r.Valid() && Agrees(items, ReadAll(old(r.Rest()), n), r.Rest())
    decreases |r.data| - r.pos, 3
  {
    ghost var start := r.Rest();
    var out: seq<Sc> := [];
    if ReadAll(start, n).Got? {
      assert out + ReadAll(start, n).value == ReadAll(start, n).value;
    }
    for i := 0 to n
      invariant r.Valid() && |out| == i && |r.Rest()| <= |start|
      invariant Prepended(out, ReadAll(r.Rest(), n - i), ReadAll(start, n))
    {
      ghost var before := r.Rest();
      var v := ReadScval(r);
      if v.None? {
        return None;
      }
      PrependOne(out, before, v.value, r.Rest(), n - i, ReadAll(start, n));
      out := out + [v.value];
    }
    assert out + [] == out;
    return Some(out);
  }

  /** The whole list is what was read so far followed by what is still to be read. */
  predicate Prepended<T(==)>(out: seq<T>, tail: Parsed<seq<T>>, whole: Parsed<seq<T>>) {
    (tail.Fail? <==> whole.Fail?) && (tail.Got? ==> whole == Got(out + tail.value, tail.rest))
  }

  lemma PrependOne(out: seq<Sc>, bs: Bytes, v: Sc, rest: Bytes, n: nat, whole: Parsed<seq<Sc>>)
    requires n > 0 && Read(bs) == Got(v, rest) && Prepended(out, ReadAll(bs, n), whole)
    ensures Prepended(out + [v], ReadAll(rest, n - 1), whole)
  {
    if ReadAll(rest, n - 1).Got? {
      var vs := ReadAll(rest, n - 1).value;
      assert out + ([v] + vs) == out + [v] + vs;
    }
  }

  lemma PrependPair(out: seq<ScEntry>, bs: Bytes, k: Sc, mid: Bytes, v: Sc, rest: Bytes, n: nat,
                    whole: Parsed<seq<ScEntry>>)
    requires n > 0 && Read(bs) == Got(k, mid) && Read(mid) == Got(v, rest)
    requires Prepended(out, ReadEntries(bs, n), whole)
    ensures Prepended(out + [ScEntry(k, v)], ReadEntries(rest, n - 1), whole)
  {
    if ReadEntries(rest, n - 1).Got? {
      var es := ReadEntries(rest, n - 1).value;
      assert out + ([ScEntry(k, v)] + es) == out + [ScEntry(k, v)] + es;
    }
  }

  method ReadPairs(r: Reader, n: nat) returns (entries: Option<seq<ScEntry>>)
    requires r.Valid()
    modifies r
    ensures r.Valid() && Agrees(entries, ReadEntries(old(r.Rest()), n), r.Rest())
    decreases |r.data| - r.pos, 3
  {
    ghost var start := r.Rest();
    var out: seq<ScEntry> := [];
    if ReadEntries(start, n).Got? {
      assert out + ReadEntries(start, n).value == ReadEntries(start, n).value;
    }
    for i := 0 to n
      invariant r.Valid() && |out| == i && |r.Rest()| <= |start|
      invariant Prepended(out, ReadEntries(r.Rest(), n - i), ReadEntries(start, n))
    {
      ghost var before := r.Rest();
      var k := ReadScval(r);
      if k.None? {
        return None;
      }
      ghost var mid := r.Rest();
      var v := ReadScval(r);
      if v.None? {
        return None;
      }
      PrependPair(out, before, k.value, mid, v.value, r.Rest(), n - i, ReadEntries(start, n));
      out := out + [ScEntry(k.value, v.value)];
    }
    assert out + [] == out;
    return Some(out);
  }
}
