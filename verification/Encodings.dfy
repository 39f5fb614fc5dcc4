/**
 * The encodings two tools must agree on, and what some of them are byte by
 * byte: type codes of the SCVal union, big-endian words, padding to four.
 */
module Encodings {
  import opened Bits
  import opened ByteStrings
  import opened Results
  import Merkle
  import Strkey
  import Xdr

  /** The leaf encoding of an address is the snapshot tool's encoding of the address value. */
  lemma AddressesAgree(key: Bytes)
    ensures Merkle.AddressXdr(key) == Xdr.Write(Xdr.ScAddress(key))
  {
    match Strkey.Decode(key) {
      case Some((version, payload)) =>
        assert BigEndian(18, 4) + (BigEndian(0, 4) + BigEndian(0, 4) + payload)
            == BigEndian(18, 4) + BigEndian(0, 4) + BigEndian(0, 4) + payload;
        assert BigEndian(18, 4) + (BigEndian(1, 4) + payload) == BigEndian(18, 4) + BigEndian(1, 4) + payload;
      case None =>
    }
  }

  lemma SmallWords(n: nat)
    requires n < 256
    ensures BigEndian(n, 4) == [0, 0, 0, n]
    ensures BigEndian(n, 8) == [0, 0, 0, 0, 0, 0, 0, n]
  {
    forall j: nat | j < 4
      ensures BigEndian(n, 4)[j] == [0, 0, 0, n][j]
    {
      BigEndianDigits(n, 4, j);
      DigitOfSmall(n, 3 - j);
    }
    forall j: nat | j < 8
      ensures BigEndian(n, 8)[j] == [0, 0, 0, 0, 0, 0, 0, n][j]
    {
      BigEndianDigits(n, 8, j);
      DigitOfSmall(n, 7 - j);
    }
  }

  lemma DigitOfSmall(n: nat, k: nat)
    requires n < 256
    ensures (n / Capacity(k)) % 256 == if k == 0 then n else 0
  {
    if k > 0 {
      assert Capacity(k) >= 256;
      DivModUnique(n, Capacity(k), 0, n);
    }
  }

  function Repeated(b: byte, k: nat): (r: Bytes)
    ensures |r| == k
  {
    seq(k, _ => b)
  }

  /** Minus one is all ones. */
  lemma {:induction false} AllOnes(k: nat)
    ensures BigEndian(Capacity(k) - 1, k) == Repeated(255, k)
    ensures SignedBigEndian(-1, k) == Repeated(255, k)
  {
    DivModUnique(-1, Capacity(k), -1, Capacity(k) - 1);
    if k > 0 {
      AllOnes(k - 1);
      DivModUnique(Capacity(k) - 1, 256, Capacity(k - 1) - 1, 255);
      assert Repeated(255, k) == Repeated(255, k - 1) + [255];
    }
  }

  /** The type code, then the body. */
  lemma Headed(v: Xdr.Sc, code: byte, body: Bytes)
    requires Xdr.Tag(v) == code && Xdr.WriteBody(v) == Some(body)
    ensures Xdr.Write(v) == Some([0, 0, 0, code] + body)
  {
    SmallWords(code);
  }

  lemma FlagEncodings()
    ensures Xdr.Write(Xdr.ScBool(true)) == Some([0, 0, 0, 0] + [0, 0, 0, 1])
    ensures Xdr.Write(Xdr.ScBool(false)) == Some([0, 0, 0, 0] + [0, 0, 0, 0])
    ensures Xdr.Write(Xdr.ScVoid) == Some([0, 0, 0, 1] + [])
    ensures Xdr.Write(Xdr.ScLedgerKeyInstance) == Some([0, 0, 0, 20] + [])
  {
    WordCapacities();
    SmallWords(0);
    SmallWords(1);
    Headed(Xdr.ScBool(true), 0, [0, 0, 0, 1]);
    Headed(Xdr.ScBool(false), 0, [0, 0, 0, 0]);
    Headed(Xdr.ScVoid, 1, []);
    Headed(Xdr.ScLedgerKeyInstance, 20, []);
  }

  /** Integers: most significant byte first. */
  lemma UnsignedEncodings()
    ensures Xdr.Write(Xdr.ScU32(7)) == Some([0, 0, 0, 3] + [0, 0, 0, 7])
    ensures Xdr.Write(Xdr.ScU64(7)) == Some([0, 0, 0, 5] + [0, 0, 0, 0, 0, 0, 0, 7])
    ensures Xdr.Write(Xdr.ScTimepoint(7)) == Some([0, 0, 0, 7] + [0, 0, 0, 0, 0, 0, 0, 7])
    ensures Xdr.Write(Xdr.ScDuration(7)) == Some([0, 0, 0, 8] + [0, 0, 0, 0, 0, 0, 0, 7])
  {
    WordCapacities();
    SmallWords(7);
    Headed(Xdr.ScU32(7), 3, [0, 0, 0, 7]);
    Headed(Xdr.ScU64(7), 5, [0, 0, 0, 0, 0, 0, 0, 7]);
    Headed(Xdr.ScTimepoint(7), 7, [0, 0, 0, 0, 0, 0, 0, 7]);
    Headed(Xdr.ScDuration(7), 8, [0, 0, 0, 0, 0, 0, 0, 7]);
  }

  /** Negative integers: two's complement. */
  lemma SignedEncodings()
    ensures Xdr.Write(Xdr.ScI32(-1)) == Some([0, 0, 0, 4] + Repeated(255, 4))
    ensures Xdr.Write(Xdr.ScI64(-1)) == Some([0, 0, 0, 6] + Repeated(255, 8))
  {
    WordCapacities();
    AllOnes(4);
    AllOnes(8);
    Headed(Xdr.ScI32(-1), 4, Repeated(255, 4));
    Headed(Xdr.ScI64(-1), 6, Repeated(255, 8));
  }

  /** Of two words the high one comes first. */
  lemma WideEncodings()
    ensures Xdr.Write(Xdr.ScU128(7)) == Some([0, 0, 0, 9] + (Repeated(0, 8) + [0, 0, 0, 0, 0, 0, 0, 7]))
    ensures Xdr.Write(Xdr.ScI128(-1)) == Some([0, 0, 0, 10] + (Repeated(255, 8) + Repeated(255, 8)))
  {
    WordCapacities();
    SmallWords(0);
    SmallWords(7);
    AllOnes(8);
    assert [0, 0, 0, 0, 0, 0, 0, 0] == Repeated(0, 8);
    DivModUnique(-1, TWO_64, -1, TWO_64 - 1);
    Headed(Xdr.ScU128(7), 9, Repeated(0, 8) + [0, 0, 0, 0, 0, 0, 0, 7]);
    Headed(Xdr.ScI128(-1), 10, Repeated(255, 8) + Repeated(255, 8));
  }

  lemma OneByteOpaque(b: byte)
    ensures Xdr.WVar([b]) == Some([0, 0, 0, 1] + ([b] + [0, 0, 0]))
  {
    WordCapacities();
    SmallWords(1);
    assert Xdr.Zeros(3) == [0, 0, 0];
  }

  /** Length, data, zero padding to a multiple of four. */
  lemma OpaqueEncodings()
    ensures Xdr.Write(Xdr.ScBytes([9])) == Some([0, 0, 0, 13] + ([0, 0, 0, 1] + ([9] + [0, 0, 0])))
    ensures Xdr.Write(Xdr.ScString([97])) == Some([0, 0, 0, 14] + ([0, 0, 0, 1] + ([97] + [0, 0, 0])))
    ensures Xdr.Write(Xdr.ScSymbol([97])) == Some([0, 0, 0, 15] + ([0, 0, 0, 1] + ([97] + [0, 0, 0])))
  {
    OneByteOpaque(9);
    OneByteOpaque(97);
    Headed(Xdr.ScBytes([9]), 13, [0, 0, 0, 1] + ([9] + [0, 0, 0]));
    Headed(Xdr.ScString([97]), 14, [0, 0, 0, 1] + ([97] + [0, 0, 0]));
    Headed(Xdr.ScSymbol([97]), 15, [0, 0, 0, 1] + ([97] + [0, 0, 0]));
  }

  /** A presence flag and a count stand before the elements of a vector or a map. */
  lemma VecEncoding()
    ensures Xdr.Write(Xdr.ScVec([Xdr.ScVoid])) == Some([0, 0, 0, 16] + ([0, 0, 0, 1] + ([0, 0, 0, 1] + [0, 0, 0, 1])))
  {
    WordCapacities();
    SmallWords(1);
    OneVoid();
    Headed(Xdr.ScVec([Xdr.ScVoid]), 16, [0, 0, 0, 1] + ([0, 0, 0, 1] + [0, 0, 0, 1]));
  }

  lemma MapEncoding()
    ensures Xdr.Write(Xdr.ScMap([])) == Some([0, 0, 0, 17] + ([0, 0, 0, 1] + ([0, 0, 0, 0] + [])))
  {
    WordCapacities();
    SmallWords(0);
    SmallWords(1);
    Headed(Xdr.ScMap([]), 17, [0, 0, 0, 1] + ([0, 0, 0, 0] + []));
  }

  lemma InstanceEncoding()
    ensures Xdr.Write(Xdr.ScBareInstance(None)) == Some([0, 0, 0, 19] + ([0, 0, 0, 1] + [0, 0, 0, 0]))
  {
    WordCapacities();
    SmallWords(0);
    SmallWords(1);
    Headed(Xdr.ScBareInstance(None), 19, [0, 0, 0, 1] + [0, 0, 0, 0]);
  }

  lemma OneVoid()
    ensures Xdr.WriteAll([Xdr.ScVoid]) == Some([0, 0, 0, 1])
  {
    Headed(Xdr.ScVoid, 1, []);
    assert ([0, 0, 0, 1] + []) + [] == [0, 0, 0, 1];
    assert [Xdr.ScVoid][1..] == [] && Xdr.WriteAll([]) == Some([]);
  }
}
