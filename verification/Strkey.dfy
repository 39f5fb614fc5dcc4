/**
 * Stellar address keys as 35 raw bytes: a version byte, 32 payload bytes and a
 * CRC-16/XMODEM checksum, least significant byte first.
 */
module Strkey {
  import opened Bits
  import opened ByteStrings
  import opened Results

  const VERSION_ACCOUNT: byte := 48
  const VERSION_CONTRACT: byte := 16
  const POLYNOMIAL: nat := 0x1021

  type word = x: int | 0 <= x < 0x1_0000

  /** One shift of the register: the top bit decides whether the polynomial is folded in. */
  function Round(crc: word): (r: word) {
    FoldFits((2 * crc) % 0x1_0000, POLYNOMIAL);
    if crc >= 0x8000 then Xor((2 * crc) % 0x1_0000, POLYNOMIAL) else 2 * crc
  }

  function Rounds(crc: word, n: nat): word {
    if n == 0 then crc else Round(Rounds(crc, n - 1))
  }

  function Absorb(crc: word, b: byte): word {
    FoldFits(crc, b * 256);
    Rounds(Xor(crc, b * 256), 8)
  }

  function Crc16(data: Bytes): word {
    if data == [] then 0 else Absorb(Crc16(data[..|data| - 1]), data[|data| - 1])
  }

  function Encode(version: byte, payload: Bytes): Bytes {
    var body := [version] + payload;
    body + LittleEndian(Crc16(body))
  }

  function LittleEndian(crc: word): Bytes {
    [crc % 256, crc / 256]
  }

  /** The version and payload, when the length and the checksum are right. */
  function Decode(raw: Bytes): Option<(byte, Bytes)> {
    if |raw| != 35 then None
    else if LittleEndian(Crc16(raw[..33])) != raw[33..] then None
    else Some((raw[0], raw[1..33]))
  }

  lemma DecodeEncode(version: byte, payload: Bytes)
    requires |payload| == 32
    ensures Decode(Encode(version, payload)) == Some((version, payload))
  {
    var body := [version] + payload;
    assert Encode(version, payload)[..33] == body;
    assert Encode(version, payload)[33..] == LittleEndian(Crc16(body));
  }

  lemma EncodeDecode(raw: Bytes)
    requires Decode(raw).Some?
    ensures var (version, payload) := Decode(raw).value; |payload| == 32 && Encode(version, payload) == raw
  {
    assert [raw[0]] + raw[1..33] == raw[..33];
    assert raw[..33] + raw[33..] == raw;
  }

  /** A register whose top bit is clear is doubled. */
  lemma RoundDoubles(crc: word)
    requires 2 * crc < 0x1_0000
    ensures Round(crc) == 2 * crc
  {
  }

  lemma TwiceScaled(a: nat, p: nat)
    ensures a * (2 * p) == 2 * (a * p)
  {
  }

  /** While no set bit reaches the top, n rounds scale the register by a power of two. */
  lemma {:induction false} Doublings(crc: word, n: nat)
    requires crc * Pow2(n) < 0x1_0000
    ensures Rounds(crc, n) == crc * Pow2(n)
  {
    if n > 0 {
      var p, half := Pow2(n - 1), crc * Pow2(n - 1);
      TwiceScaled(crc, p);
      assert Pow2(n) == 2 * p;
      assert half < 0x8000;
      Doublings(crc, n - 1);
      RoundDoubles(half);
    }
  }

  /** The register of a single one is the polynomial of CRC-16/XMODEM. */
  lemma CrcOfOne() returns (one: byte)
    ensures one == 1 && Crc16([one]) == 0x1021
  {
    one := 1;
    var seven := 7;
    assert Pow2(seven) == 128;
    Doublings(256, seven);
    XorZero(256);
    XorZero(POLYNOMIAL);
    assert [one][..0] == [] && Crc16([]) == 0;
    assert Absorb(0, one) == Round(Rounds(256, seven));
  }

  lemma XorZero(n: nat)
    ensures Xor(0, n) == n
  {
    if n > 0 {
      XorZero(n / 2);
    }
  }

  // ---------------------------------------------------------------------
  // Error detection
  // ---------------------------------------------------------------------

  lemma WordWidth() returns (k: nat)
    ensures Pow2(k) == 0x1_0000
  {
    k := ByteBits();
    Pow2Sum(k, k);
    k := 2 * k;
  }

  lemma FoldFits(a: nat, b: nat)
    requires a < 0x1_0000 && b < 0x1_0000
    ensures Xor(a, b) < 0x1_0000
  {
    var k := WordWidth();
    XorBound(a, b, k);
  }

  lemma RoundInjective(c: word, d: word)
    requires Round(c) == Round(d)
    ensures c == d
  {
    var x, y := (2 * c) % 0x1_0000, (2 * d) % 0x1_0000;
    Shifted(c, x);
    Shifted(d, y);
    FoldTellsApart(x, y, POLYNOMIAL);
    FoldTellsApart(y, x, POLYNOMIAL);
  }

  /** Shifting a word left drops its top bit, and that is all it loses. */
  lemma Shifted(c: word, x: nat)
    requires x == (2 * c) % 0x1_0000
    ensures x % 2 == 0 && x == if c >= 0x8000 then 2 * c - 0x1_0000 else 2 * c
  {
  }

  /** The polynomial is odd, so folding it in sets the bit the shift cleared. */
  lemma FoldTellsApart(x: nat, y: nat, p: nat)
    requires p % 2 == 1 && x % 2 == 0 && y % 2 == 0
    ensures Xor(x, p) != y
    ensures Xor(x, p) == Xor(y, p) ==> x == y
  {
    XorParts(x, p);
    XorTwice(x, p);
    XorTwice(y, p);
  }

  lemma {:induction false} RoundsInjective(c: word, d: word, n: nat)
    requires Rounds(c, n) == Rounds(d, n)
    ensures c == d
  {
    if n > 0 {
      RoundInjective(Rounds(c, n - 1), Rounds(d, n - 1));
      RoundsInjective(c, d, n - 1);
    }
  }

  /** Absorbing tells registers apart, and tells bytes apart. */
  lemma AbsorbInjective(c: word, d: word, a: byte, b: byte)
    requires c == d || a == b
    requires Absorb(c, a) == Absorb(d, b)
    ensures c == d && a == b
  {
    FoldFits(c, a * 256);
    FoldFits(d, b * 256);
    RoundsInjective(Xor(c, a * 256), Xor(d, b * 256), 8);
    XorTwice(c, a * 256);
    XorTwice(d, b * 256);
    XorCommutes(c, a * 256);
    XorCommutes(d, b * 256);
    XorTwice(a * 256, c);
    XorTwice(b * 256, d);
  }

  /** Changing exactly one byte always changes the checksum. */
  lemma {:induction false} CrcDetectsByte(s: Bytes, i: nat, b: byte)
    requires i < |s| && s[i] != b
    ensures Crc16(s[i := b]) != Crc16(s)
  {
    var n, t := |s| - 1, s[i := b];
    if Crc16(t) == Crc16(s) {
      if i == n {
        assert t[..n] == s[..n];
        AbsorbInjective(Crc16(t[..n]), Crc16(s[..n]), t[n], s[n]);
      } else {
        assert t[..n] == s[..n][i := b];
        CrcDetectsByte(s[..n], i, b);
        AbsorbInjective(Crc16(t[..n]), Crc16(s[..n]), t[n], s[n]);
      }
    }
  }

  lemma LittleEndianInjective(x: word, y: word)
    requires LittleEndian(x) == LittleEndian(y)
    ensures x == y
  {
    assert LittleEndian(x)[0] == LittleEndian(y)[0] && LittleEndian(x)[1] == LittleEndian(y)[1];
  }

  /** No single-byte corruption of a valid key is ever accepted. */
  lemma CorruptionRejected(raw: Bytes, i: nat, b: byte)
    requires Decode(raw).Some? && i < 35 && raw[i] != b
    ensures Decode(raw[i := b]).None?
  {
    var bad := raw[i := b];
    if i < 33 {
      assert bad[..33] == raw[..33][i := b] && bad[33..] == raw[33..];
      CrcDetectsByte(raw[..33], i, b);
      if LittleEndian(Crc16(raw[..33])) == LittleEndian(Crc16(bad[..33])) {
        LittleEndianInjective(Crc16(raw[..33]), Crc16(bad[..33]));
      }
    } else {
      assert bad[..33] == raw[..33];
      assert bad[33..][i - 33] != raw[33..][i - 33];
    }
  }
}
