/** Field-width codec: unsigned integers stored in a fixed number of bytes,
    least-significant byte first (little-endian) or most-significant byte
    first (big-endian).  A width of 0 stores nothing and reads as 0. */
module Wire {

  type byte = bv8

  datatype ByteOrder = LittleEndian | BigEndian

  /** 256^w: one more than the largest value a w-byte field can hold. */
  function Pow256(w: nat): (r: nat)
    ensures r >= 1
  {
    if w == 0 then 1 else 256 * Pow256(w - 1)
  }

  function Reverse(bs: seq<byte>): (r: seq<byte>)
    ensures |r| == |bs|
    ensures forall i :: 0 <= i < |bs| ==> r[i] == bs[|bs| - 1 - i]
  {
    if bs == [] then [] else Reverse(bs[1..]) + [bs[0]]
  }

  /** The value of a little-endian field. */
  function ReadLE(bs: seq<byte>): (r: nat)
    ensures r < Pow256(|bs|)
    decreases |bs|
  {
    if bs == [] then 0 else bs[0] as nat + 256 * ReadLE(bs[1..|bs|])
  }

  /** The value of a big-endian field. */
  function ReadBE(bs: seq<byte>): (r: nat)
    ensures r < Pow256(|bs|)
  {
    if bs == [] then 0 else 256 * ReadBE(bs[..|bs| - 1]) + bs[|bs| - 1] as nat
  }

  function Read(order: ByteOrder, bs: seq<byte>): (r: nat)
    ensures r < Pow256(|bs|)
  {
    match order
    case LittleEndian => ReadLE(bs)
    case BigEndian => ReadBE(bs)
  }

  /** The w-byte little-endian encoding of x (x is reduced modulo 256^w). */
  function WriteLE(x: nat, w: nat): (r: seq<byte>)
    ensures |r| == w
  {
    if w == 0 then [] else [(x % 256) as byte] + WriteLE(x / 256, w - 1)
  }

  /** The w-byte big-endian encoding of x: the little-endian bytes reversed. */
  function WriteBE(x: nat, w: nat): (r: seq<byte>)
    ensures |r| == w
  {
    Reverse(WriteLE(x, w))
  }

  function Write(order: ByteOrder, x: nat, w: nat): (r: seq<byte>)
    ensures |r| == w
  {
    match order
    case LittleEndian => WriteLE(x, w)
    case BigEndian => WriteBE(x, w)
  }

  lemma {:induction false} ReverseReverse(bs: seq<byte>)
    ensures Reverse(Reverse(bs)) == bs
  {
    var r := Reverse(Reverse(bs));
    assert |r| == |bs|;
    forall i | 0 <= i < |bs| ensures r[i] == bs[i] {
      assert r[i] == Reverse(bs)[|bs| - 1 - i];
    }
  }

  /** Reading a big-endian field gives the same value as reading its bytes
      in the opposite order as a little-endian field. */
  lemma {:induction false} ReadBEReverse(bs: seq<byte>)
    ensures ReadBE(Reverse(bs)) == ReadLE(bs)
  {
    if bs != [] {
      var r := Reverse(bs);
      assert r[..|r| - 1] == Reverse(bs[1..]);
      assert bs[1..|bs|] == bs[1..];
      assert r[|r| - 1] == bs[0];
      ReadBEReverse(bs[1..]);
    }
  }

  lemma {:induction false} ReadLEReverse(bs: seq<byte>)
    ensures ReadLE(Reverse(bs)) == ReadBE(bs)
  {
    ReverseReverse(bs);
    ReadBEReverse(Reverse(bs));
  }

  /** Writing then reading a little-endian field gives back any value the
      width can hold. */
  lemma {:induction false} ReadWriteLE(x: nat, w: nat)
    requires x < Pow256(w)
    ensures ReadLE(WriteLE(x, w)) == x
  {
    if w > 0 {
      var lo, hi := x % 256, x / 256;
      assert x == 256 * hi + lo;
      assert hi < Pow256(w - 1) by {
        assert 256 * hi <= x < 256 * Pow256(w - 1);
      }
      ByteOfLow(lo);
      ReadWriteLE(hi, w - 1);
      assert WriteLE(x, w)[1..w] == WriteLE(hi, w - 1);
    }
  }

  lemma DivModByte(x: nat, lo: nat, hi: nat)
    requires lo < 256 && x == lo + 256 * hi
    ensures x % 256 == lo && x / 256 == hi
  {
  }

  lemma ByteOfLow(lo: nat)
    requires lo < 256
    ensures (lo as byte) as nat == lo
  {
    var b := lo as bv9;
    assert b < 256;
    assert (b as byte) as bv9 == b;
  }

  lemma LowOfByte(b: byte)
    ensures (b as nat) as byte == b
  {
    var w := b as bv9;
    assert w as nat == b as nat;
  }

  lemma {:induction false} ReadWriteBE(x: nat, w: nat)
    requires x < Pow256(w)
    ensures ReadBE(WriteBE(x, w)) == x
  {
    ReadBEReverse(WriteLE(x, w));
    ReadWriteLE(x, w);
  }

  /** Reading then writing a little-endian field gives back its bytes. */
  lemma {:induction false} WriteReadLE(bs: seq<byte>)
    ensures WriteLE(ReadLE(bs), |bs|) == bs
    decreases |bs|
  {
    if bs != [] {
      var x, lo, hi := ReadLE(bs), bs[0] as nat, ReadLE(bs[1..|bs|]);
      assert x == lo + 256 * hi;
      DivModByte(x, lo, hi);
      LowOfByte(bs[0]);
      WriteReadLE(bs[1..|bs|]);
    }
  }

  lemma {:induction false} WriteReadBE(bs: seq<byte>)
    ensures WriteBE(ReadBE(bs), |bs|) == bs
  {
    ReadLEReverse(bs);
    WriteReadLE(Reverse(bs));
    ReverseReverse(bs);
  }

  /** The byte-order-generic forms of the two round trips. */
  lemma {:induction false} ReadWrite(order: ByteOrder, x: nat, w: nat)
    requires x < Pow256(w)
    ensures Read(order, Write(order, x, w)) == x
  {
    match order
    case LittleEndian => ReadWriteLE(x, w);
    case BigEndian => ReadWriteBE(x, w);
  }

  lemma {:induction false} WriteRead(order: ByteOrder, bs: seq<byte>)
    ensures Write(order, Read(order, bs), |bs|) == bs
  {
    match order
    case LittleEndian => WriteReadLE(bs);
    case BigEndian => WriteReadBE(bs);
  }

  /** The value of two adjacent little-endian fields read as one: the
      second field holds the high-order bytes. */
  lemma {:induction false} ReadLEAppend(a: seq<byte>, b: seq<byte>)
    ensures ReadLE(a + b) == ReadLE(a) + Pow256(|a|) * ReadLE(b)
    decreases |a|
  {
    if a != [] {
      assert (a + b)[1..|a + b|] == a[1..|a|] + b;
      ReadLEAppend(a[1..|a|], b);
      var x, y, p := ReadLE(a[1..|a|]), ReadLE(b), Pow256(|a| - 1);
      assert ReadLE(a + b) == a[0] as nat + 256 * (x + p * y);
      Distribute(a[0] as nat, x, p, y);
    } else {
      assert a + b == b;
    }
  }

  lemma Distribute(c: nat, x: nat, p: nat, y: nat)
    ensures c + 256 * (x + p * y) == (c + 256 * x) + (256 * p) * y
  {
  }

  lemma {:induction false} ReverseAppend(a: seq<byte>, b: seq<byte>)
    ensures Reverse(a + b) == Reverse(b) + Reverse(a)
  {
    var r, s := Reverse(a + b), Reverse(b) + Reverse(a);
    assert |r| == |s|;
    forall i | 0 <= i < |r| ensures r[i] == s[i] {
      if i < |b| {
        assert s[i] == Reverse(b)[i];
      } else {
        assert s[i] == Reverse(a)[i - |b|];
      }
    }
  }

  /** The value of two adjacent big-endian fields read as one: the first
      field holds the high-order bytes. */
  lemma {:induction false} ReadBEAppend(a: seq<byte>, b: seq<byte>)
    ensures ReadBE(a + b) == ReadBE(a) * Pow256(|b|) + ReadBE(b)
  {
    if b == [] {
      assert a + b == a;
    } else {
      var b' := b[..|b| - 1];
      var last := b[|b| - 1] as nat;
      assert (a + b)[..|a + b| - 1] == a + b';
      assert (a + b)[|a + b| - 1] as nat == last;
      ReadBEAppend(a, b');
      Shift(ReadBE(a), Pow256(|b'|), ReadBE(b'), last);
    }
  }

  lemma Shift(x: nat, p: nat, y: nat, c: nat)
    ensures 256 * (x * p + y) + c == x * (256 * p) + (256 * y + c)
  {
  }
}
