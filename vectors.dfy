/** The unit test's vectors and run_test's checks, as facts about the
    decoder that hold for every width table agreeing with the entries the
    vectors exercise.  Each buffer is the initialiser of the vector's bytes
    (the rest of the test's zero-filled array is never read, see
    StreamProps.TrailingBytesIgnored).  Dafny's bit-wise operators bind
    tighter than shifts, so the modern type bytes carry parentheses. */
module StreamParseTests {
  import opened Wire
  import opened Layout
  import opened StreamParse

  /** The fields run_test compares. */
  datatype Expected = Expected(streamId: nat, dfOffset: nat, dfSize: nat, dfFin: bool)

  /** struct test: the decoder's inputs, the header size buf_sz, the
      expected frame, and whether the decoder should accept. */
  datatype TestCase = TestCase(
    version: Version, buf: seq<byte>, bufSz: nat, rem: nat,
    frame: Expected, shouldSucceed: bool)

  /** run_test's verdict on one vector. */
  predicate Passes(t: Tables, tc: TestCase)
    requires ValidTables(t)
    ensures Passes(t, tc) ==>
      (tc.shouldSucceed <==> Decode(t, tc.version, tc.buf, tc.rem).Some?)
    ensures Passes(t, tc) && tc.shouldSucceed ==>
      tc.bufSz + tc.frame.dfSize <= tc.rem && (tc.frame.dfFin || tc.frame.dfSize > 0)
  {
    var r := Decode(t, tc.version, tc.buf, tc.rem);
    if tc.shouldSucceed then
      && r.Some?
      && r.value.consumed == tc.bufSz + tc.frame.dfSize
      && r.value.frame.streamId == tc.frame.streamId
      && r.value.frame.dfSize == tc.frame.dfSize
      && r.value.frame.dfOffset == tc.frame.dfOffset
      && r.value.frame.dfFin == tc.frame.dfFin
      && r.value.frame.packetIn == NullPacket
      && r.value.frame.dfReadOff == 0
    else
      r.None?
  }

  // Little-endian vectors (LSQVER_037), type byte 1fdoooss.
  /** Every possible bit is set. */
  function LegacyLEAllBitsSetVector(): TestCase
  {
    TestCase(Q037,
      [0x80 | 0x40 | 0x20 | 0x1C | 0x3,
       0x10, 0x02, 0x00, 0x00,
       0x01, 0x02, 0x03, 0x04, 0x05, 0x06, 0x07, 0x08,
       0xC4, 0x01],
      1 + 2 + 8 + 4, 0x200, Expected(0x210, 0x0807060504030201, 0x1C4, true), true)
  }

  /** Every possible bit is set, except FIN. */
  function LegacyLEAllBitsSetNoFinVector(): TestCase
  {
    TestCase(Q037,
      [0x80 | 0x00 | 0x20 | 0x1C | 0x3,
       0x10, 0x02, 0x00, 0x00,
       0x01, 0x02, 0x03, 0x04, 0x05, 0x06, 0x07, 0x08,
       0xC4, 0x01],
      1 + 2 + 8 + 4, 0x200, Expected(0x210, 0x0807060504030201, 0x1C4, false), true)
  }

  /** Data length bit clear: the length runs to the end of the packet. */
  function LegacyLEImplicitLengthVector(): TestCase
  {
    TestCase(Q037,
      [0x80 | 0x40 | 0x00 | 0x1C | 0x3,
       0x10, 0x02, 0x00, 0x00,
       0x01, 0x02, 0x03, 0x04, 0x05, 0x06, 0x07, 0x08,
       0xC4, 0x01],
      1 + 0 + 8 + 4, 0x200, Expected(0x210, 0x0807060504030201, 0x200 - (1 + 8 + 4), true), true)
  }

  /** Stream id length is 1. */
  function LegacyLEStreamIdLen1Vector(): TestCase
  {
    TestCase(Q037,
      [0x80 | 0x40 | 0x20 | 0x1C | 0x0,
       0xF0,
       0x01, 0x02, 0x03, 0x04, 0x05, 0x06, 0x07, 0x08,
       0xC4, 0x01],
      1 + 2 + 8 + 1, 0x200, Expected(0xF0, 0x0807060504030201, 0x1C4, true), true)
  }

  /** All bits zero save offset length. */
  function LegacyLEOnlyOffsetLenVector(): TestCase
  {
    TestCase(Q037,
      [0x80 | 0x00 | 0x00 | 0x04 | 0x0,
       0xF0,
       0x55, 0x02, 0x03, 0x04, 0x05, 0x06, 0x07, 0x08,
       0xC4, 0x01],
      1 + 0 + 2 + 1, 0x200, Expected(0xF0, 0x255, 0x200 - 4, false), true)
  }

  /** Sanity #1: inferred length zero without FIN. */
  function LegacyLESanityImplicitZeroVector(): TestCase
  {
    TestCase(Q037,
      [0x80 | 0x00 | 0x00 | 0x04 | 0x0,
       0xF0,
       0x55, 0x02],
      1 + 0 + 2 + 1, 4, Expected(0xF0, 0x255, 0x200 - 4, false), false)
  }

  /** Sanity #2: explicit length zero without FIN. */
  function LegacyLESanityExplicitZeroVector(): TestCase
  {
    TestCase(Q037,
      [0x80 | 0x00 | 0x20 | 0x04 | 0x0,
       0xF0,
       0x55, 0x02,
       0x00, 0x00],
      1 + 2 + 2 + 1, 200, Expected(0xF0, 0x255, 0x200 - 4, false), false)
  }

  /** Sanity #3: explicit length zero with FIN. */
  function LegacyLESanityExplicitZeroFinVector(): TestCase
  {
    TestCase(Q037,
      [0x80 | 0x40 | 0x20 | 0x04 | 0x0,
       0xF0,
       0x55, 0x02,
       0x00, 0x00],
      1 + 2 + 2 + 1, 200, Expected(0xF0, 0x255, 0x0, true), true)
  }

  /** Data bounds #1: exactly fills the packet. */
  function LegacyLEBoundsExactVector(): TestCase
  {
    TestCase(Q037,
      [0x80 | 0x00 | 0x20 | 0x04 | 0x0,
       0xF0,
       0x55, 0x02,
       0xFA, 0x01],
      1 + 2 + 2 + 1, 0x200, Expected(0xF0, 0x255, 0x1FA, false), true)
  }

  /** Data bounds #2: one byte too many. */
  function LegacyLEBoundsOverVector(): TestCase
  {
    TestCase(Q037,
      [0x80 | 0x00 | 0x20 | 0x04 | 0x0,
       0xF0,
       0x55, 0x02,
       0xFB, 0x01],
      1 + 2 + 2 + 1, 0x200, Expected(0xF0, 0x255, 0x1FA, false), false)
  }

  // Big-endian vectors (LSQVER_039), type byte 1fdoooss.
  /** Every possible bit is set. */
  function LegacyBEAllBitsSetVector(): TestCase
  {
    TestCase(Q039,
      [0x80 | 0x40 | 0x20 | 0x1C | 0x3,
       0x00, 0x00, 0x02, 0x10,
       0x08, 0x07, 0x06, 0x05, 0x04, 0x03, 0x02, 0x01,
       0x01, 0xC4],
      1 + 2 + 8 + 4, 0x200, Expected(0x210, 0x0807060504030201, 0x1C4, true), true)
  }

  /** Every possible bit is set, except FIN. */
  function LegacyBEAllBitsSetNoFinVector(): TestCase
  {
    TestCase(Q039,
      [0x80 | 0x00 | 0x20 | 0x1C | 0x3,
       0x00, 0x00, 0x02, 0x10,
       0x08, 0x07, 0x06, 0x05, 0x04, 0x03, 0x02, 0x01,
       0x01, 0xC4],
      1 + 2 + 8 + 4, 0x200, Expected(0x210, 0x0807060504030201, 0x1C4, false), true)
  }

  /** Data length bit clear: the length runs to the end of the packet. */
  function LegacyBEImplicitLengthVector(): TestCase
  {
    TestCase(Q039,
      [0x80 | 0x40 | 0x00 | 0x1C | 0x3,
       0x00, 0x00, 0x02, 0x10,
       0x08, 0x07, 0x06, 0x05, 0x04, 0x03, 0x02, 0x01,
       0xC4, 0x01],
      1 + 0 + 8 + 4, 0x200, Expected(0x210, 0x0807060504030201, 0x200 - (1 + 8 + 4), true), true)
  }

  /** Stream id length is 1. */
  function LegacyBEStreamIdLen1Vector(): TestCase
  {
    TestCase(Q039,
      [0x80 | 0x40 | 0x20 | 0x1C | 0x0,
       0xF0,
       0x08, 0x07, 0x06, 0x05, 0x04, 0x03, 0x02, 0x01,
       0x01, 0xC4],
      1 + 2 + 8 + 1, 0x200, Expected(0xF0, 0x0807060504030201, 0x1C4, true), true)
  }

  /** All bits zero save offset length. */
  function LegacyBEOnlyOffsetLenVector(): TestCase
  {
    TestCase(Q039,
      [0x80 | 0x00 | 0x00 | 0x04 | 0x0,
       0xF0,
       0x02, 0x55, 0x03, 0x04, 0x05, 0x06, 0x07, 0x08,
       0xC4, 0x01],
      1 + 0 + 2 + 1, 0x200, Expected(0xF0, 0x255, 0x200 - 4, false), true)
  }

  /** Sanity #1: inferred length zero without FIN. */
  function LegacyBESanityImplicitZeroVector(): TestCase
  {
    TestCase(Q039,
      [0x80 | 0x00 | 0x00 | 0x04 | 0x0,
       0xF0,
       0x02, 0x55],
      1 + 0 + 2 + 1, 4, Expected(0xF0, 0x255, 0x200 - 4, false), false)
  }

  /** Sanity #2: explicit length zero without FIN. */
  function LegacyBESanityExplicitZeroVector(): TestCase
  {
    TestCase(Q039,
      [0x80 | 0x00 | 0x20 | 0x04 | 0x0,
       0xF0,
       0x02, 0x55,
       0x00, 0x00],
      1 + 2 + 2 + 1, 200, Expected(0xF0, 0x255, 0x200 - 4, false), false)
  }

  /** Sanity #3: explicit length zero with FIN. */
  function LegacyBESanityExplicitZeroFinVector(): TestCase
  {
    TestCase(Q039,
      [0x80 | 0x40 | 0x20 | 0x04 | 0x0,
       0xF0,
       0x02, 0x55,
       0x00, 0x00],
      1 + 2 + 2 + 1, 200, Expected(0xF0, 0x255, 0x0, true), true)
  }

  /** Data bounds #1: exactly fills the packet. */
  function LegacyBEBoundsExactVector(): TestCase
  {
    TestCase(Q039,
      [0x80 | 0x00 | 0x20 | 0x04 | 0x0,
       0xF0,
       0x02, 0x55,
       0x01, 0xFA],
      1 + 2 + 2 + 1, 0x200, Expected(0xF0, 0x255, 0x1FA, false), true)
  }

  /** Data bounds #2: one byte too many. */
  function LegacyBEBoundsOverVector(): TestCase
  {
    TestCase(Q039,
      [0x80 | 0x00 | 0x20 | 0x04 | 0x0,
       0xF0,
       0x02, 0x55,
       0x01, 0xFB],
      1 + 2 + 2 + 1, 0x200, Expected(0xF0, 0x255, 0x1FA, false), false)
  }

  // Modern vectors (LSQVER_041), type byte 11FSSOOD.
  /** Every possible bit is set. */
  function ModernAllBitsSetVector(): TestCase
  {
    TestCase(Q041,
      [0xC0 | (1 << 5) | (3 << 3) | (3 << 1) | 1,
       0x00, 0x00, 0x02, 0x10,
       0x08, 0x07, 0x06, 0x05, 0x04, 0x03, 0x02, 0x01,
       0x01, 0xC4],
      1 + 4 + 8 + 2, 0x200, Expected(0x210, 0x0807060504030201, 0x1C4, true), true)
  }

  /** Every possible bit is set, except FIN. */
  function ModernAllBitsSetNoFinVector(): TestCase
  {
    TestCase(Q041,
      [0xC0 | (0 << 5) | (3 << 3) | (3 << 1) | 1,
       0x00, 0x00, 0x02, 0x10,
       0x08, 0x07, 0x06, 0x05, 0x04, 0x03, 0x02, 0x01,
       0x01, 0xC4],
      1 + 4 + 8 + 2, 0x200, Expected(0x210, 0x0807060504030201, 0x1C4, false), true)
  }

  /** Data length bit clear: the length runs to the end of the packet. */
  function ModernImplicitLengthVector(): TestCase
  {
    TestCase(Q041,
      [0xC0 | (1 << 5) | (3 << 3) | (3 << 1) | 0,
       0x00, 0x00, 0x02, 0x10,
       0x08, 0x07, 0x06, 0x05, 0x04, 0x03, 0x02, 0x01,
       0xC4, 0x01],
      1 + 4 + 8 + 0, 0x200, Expected(0x210, 0x0807060504030201, 0x200 - (1 + 8 + 4), true), true)
  }

  /** Stream id length is 1. */
  function ModernStreamIdLen1Vector(): TestCase
  {
    TestCase(Q041,
      [0xC0 | (1 << 5) | (0 << 3) | (3 << 1) | 1,
       0xF0,
       0x08, 0x07, 0x06, 0x05, 0x04, 0x03, 0x02, 0x01,
       0x01, 0xC4],
      1 + 1 + 8 + 2, 0x200, Expected(0xF0, 0x0807060504030201, 0x1C4, true), true)
  }

  /** All bits zero save offset length. */
  function ModernOnlyOffsetLenVector(): TestCase
  {
    TestCase(Q041,
      [0xC0 | (0 << 5) | (0 << 3) | (1 << 1) | 0,
       0xF0,
       0x02, 0x55, 0x03, 0x04, 0x05, 0x06, 0x07, 0x08,
       0xC4, 0x01],
      1 + 1 + 2 + 0, 0x200, Expected(0xF0, 0x255, 0x200 - 4, false), true)
  }

  /** Sanity #1: inferred length zero without FIN. */
  function ModernSanityImplicitZeroVector(): TestCase
  {
    TestCase(Q041,
      [0xC0 | (0 << 5) | (0 << 3) | (1 << 1) | 0,
       0xF0,
       0x02, 0x55],
      1 + 1 + 2 + 0, 4, Expected(0xF0, 0x255, 0x200 - 4, false), false)
  }

  /** Sanity #2: explicit length zero without FIN. */
  function ModernSanityExplicitZeroVector(): TestCase
  {
    TestCase(Q041,
      [0xC0 | (0 << 5) | (0 << 3) | (1 << 1) | 1,
       0xF0,
       0x02, 0x55,
       0x00, 0x00],
      1 + 1 + 2 + 2, 200, Expected(0xF0, 0x255, 0x200 - 4, false), false)
  }

  /** Sanity #3: explicit length zero with FIN. */
  function ModernSanityExplicitZeroFinVector(): TestCase
  {
    TestCase(Q041,
      [0xC0 | (1 << 5) | (0 << 3) | (1 << 1) | 1,
       0xF0,
       0x02, 0x55,
       0x00, 0x00],
      1 + 1 + 2 + 2, 200, Expected(0xF0, 0x255, 0x0, true), true)
  }

  /** Data bounds #1: exactly fills the packet. */
  function ModernBoundsExactVector(): TestCase
  {
    TestCase(Q041,
      [0xC0 | (0 << 5) | (0 << 3) | (1 << 1) | 1,
       0xF0,
       0x02, 0x55,
       0x01, 0xFA],
      1 + 1 + 2 + 2, 0x200, Expected(0xF0, 0x255, 0x1FA, false), true)
  }

  /** Data bounds #2: one byte too many. */
  function ModernBoundsOverVector(): TestCase
  {
    TestCase(Q041,
      [0xC0 | (0 << 5) | (0 << 3) | (1 << 1) | 1,
       0xF0,
       0x02, 0x55,
       0x01, 0xFB],
      1 + 1 + 2 + 2, 0x200, Expected(0xF0, 0x255, 0x1FA, false), false)
  }

  /** A vector whose buffer is a type byte carrying fl followed by
      fields of the widths fl selects passes run_test's success checks
      when the expected frame is what those fields say. */
  lemma AcceptedVector(t: Tables, tc: TestCase, f: Family, fl: Flags, tb: byte,
                       sidF: seq<byte>, offF: seq<byte>, lenF: seq<byte>, rest: seq<byte>)
    requires ValidTables(t) && SelectFamily(tc.version) == f && tc.shouldSucceed
    requires ParseFlags(f, tb) == fl && tc.buf == [tb] + sidF + offF + lenF + rest
    requires |sidF| == SidWidth(t, f, fl.sidSel) && |offF| == OffWidth(t, f, fl.offSel)
    requires if fl.hasLen then |lenF| == LenWidth else lenF == []
    requires tc.bufSz == HeaderLen(t, f, fl) && tc.bufSz <= tc.rem
    requires Read(Order(f), sidF) == tc.frame.streamId && Read(Order(f), offF) == tc.frame.dfOffset
    requires tc.frame.dfSize == if fl.hasLen then Read(Order(f), lenF) else tc.rem - tc.bufSz
    requires tc.bufSz + tc.frame.dfSize <= tc.rem && (fl.fin || tc.frame.dfSize > 0)
    requires tc.frame.dfFin == fl.fin
    ensures Passes(t, tc)
  {
    HeaderOfParts(t, f, fl, tb, sidF, offF, lenF, rest);
    DecodeAccepts(t, f, tc.buf, tc.rem, fl, tc.frame.streamId, tc.frame.dfOffset, tc.frame.dfSize);
  }

  /** A vector built the same way whose declared or inferred data is empty
      without FIN, or runs past the packet, passes run_test's failure
      check. */
  lemma RejectedVector(t: Tables, tc: TestCase, f: Family, fl: Flags, tb: byte,
                       sidF: seq<byte>, offF: seq<byte>, lenF: seq<byte>, rest: seq<byte>)
    requires ValidTables(t) && SelectFamily(tc.version) == f && !tc.shouldSucceed
    requires ParseFlags(f, tb) == fl && tc.buf == [tb] + sidF + offF + lenF + rest
    requires |sidF| == SidWidth(t, f, fl.sidSel) && |offF| == OffWidth(t, f, fl.offSel)
    requires if fl.hasLen then |lenF| == LenWidth else lenF == []
    requires HeaderLen(t, f, fl) <= tc.rem
    requires var size := if fl.hasLen then Read(Order(f), lenF) else tc.rem - HeaderLen(t, f, fl);
      HeaderLen(t, f, fl) + size > tc.rem || (size == 0 && !fl.fin)
    ensures Passes(t, tc)
  {
    HeaderOfParts(t, f, fl, tb, sidF, offF, lenF, rest);
  }

  /** Little-endian values of short byte literals. */
  lemma LittleEndianBytes2(a: byte, b: byte)
    ensures ReadLE([a, b]) == a as nat + 256 * b as nat
  {
    assert [a, b][1..2] == [b];
    assert [b][1..1] == [];
  }

  lemma LittleEndianBytes4(a: byte, b: byte, c: byte, d: byte)
    ensures ReadLE([a, b, c, d]) == a as nat + 256 * (b as nat + 256 * (c as nat + 256 * d as nat))
  {
    assert [a, b, c, d][1..4] == [b, c, d];
    assert [b, c, d][1..3] == [c, d];
    LittleEndianBytes2(c, d);
  }

  lemma LittleEndianBytes8(a: byte, b: byte, c: byte, d: byte, e: byte, f: byte, g: byte, h: byte)
    ensures ReadLE([a, b, c, d, e, f, g, h])
         == a as nat + 256 * (b as nat + 256 * (c as nat + 256 * d as nat))
            + 0x1_0000_0000 * (e as nat + 256 * (f as nat + 256 * (g as nat + 256 * h as nat)))
  {
    assert [a, b, c, d, e, f, g, h] == [a, b, c, d] + [e, f, g, h];
    ReadLEAppend([a, b, c, d], [e, f, g, h]);
    LittleEndianBytes4(a, b, c, d);
    LittleEndianBytes4(e, f, g, h);
    assert Pow256(4) == 0x1_0000_0000;
  }

  /** Big-endian values of short byte literals, one prefix at a time. */
  lemma BigEndianBytes2(a: byte, b: byte)
    ensures ReadBE([a, b]) == a as nat * 256 + b as nat
  {
    assert [a, b][..1] == [a];
    assert [a][..0] == [];
  }

  lemma BigEndianBytes4(a: byte, b: byte, c: byte, d: byte)
    ensures ReadBE([a, b, c, d]) == ((a as nat * 256 + b as nat) * 256 + c as nat) * 256 + d as nat
  {
    assert [a, b, c, d][..3] == [a, b, c];
    assert [a, b, c][..2] == [a, b];
    BigEndianBytes2(a, b);
  }

  lemma BigEndianBytes8(a: byte, b: byte, c: byte, d: byte, e: byte, f: byte, g: byte, h: byte)
    ensures ReadBE([a, b, c, d, e, f, g, h])
         == (((a as nat * 256 + b as nat) * 256 + c as nat) * 256 + d as nat) * 0x1_0000_0000
            + (((e as nat * 256 + f as nat) * 256 + g as nat) * 256 + h as nat)
  {
    assert [a, b, c, d, e, f, g, h] == [a, b, c, d] + [e, f, g, h];
    ReadBEAppend([a, b, c, d], [e, f, g, h]);
    BigEndianBytes4(a, b, c, d);
    BigEndianBytes4(e, f, g, h);
    assert Pow256(4) == 0x1_0000_0000;
  }

  /** LegacyLE: every flag set. */
  lemma LegacyLEAllBitsSet(t: Tables)
    requires ValidTables(t)
    ensures Passes(t, LegacyLEAllBitsSetVector())
  {
    LittleEndianBytes4(0x10, 0x02, 0x00, 0x00);
    LittleEndianBytes8(0x01, 0x02, 0x03, 0x04, 0x05, 0x06, 0x07, 0x08);
    LittleEndianBytes2(0xC4, 0x01);
    AcceptedVector(t, LegacyLEAllBitsSetVector(), LegacyLE, Flags(true, true, 3, 7), 0xFF,
      [0x10, 0x02, 0x00, 0x00], [0x01, 0x02, 0x03, 0x04, 0x05, 0x06, 0x07, 0x08],
      [0xC4, 0x01], []);
  }

  /** LegacyLE: every flag set except FIN. */
  lemma LegacyLEAllBitsSetNoFin(t: Tables)
    requires ValidTables(t)
    ensures Passes(t, LegacyLEAllBitsSetNoFinVector())
  {
    LittleEndianBytes4(0x10, 0x02, 0x00, 0x00);
    LittleEndianBytes8(0x01, 0x02, 0x03, 0x04, 0x05, 0x06, 0x07, 0x08);
    LittleEndianBytes2(0xC4, 0x01);
    AcceptedVector(t, LegacyLEAllBitsSetNoFinVector(), LegacyLE, Flags(false, true, 3, 7), 0xBF,
      [0x10, 0x02, 0x00, 0x00], [0x01, 0x02, 0x03, 0x04, 0x05, 0x06, 0x07, 0x08],
      [0xC4, 0x01], []);
  }

  /** LegacyLE: length bit clear: the data runs to the end of the packet. */
  lemma LegacyLEImplicitLength(t: Tables)
    requires ValidTables(t)
    ensures Passes(t, LegacyLEImplicitLengthVector())
  {
    LittleEndianBytes4(0x10, 0x02, 0x00, 0x00);
    LittleEndianBytes8(0x01, 0x02, 0x03, 0x04, 0x05, 0x06, 0x07, 0x08);
    AcceptedVector(t, LegacyLEImplicitLengthVector(), LegacyLE, Flags(true, false, 3, 7), 0xDF,
      [0x10, 0x02, 0x00, 0x00], [0x01, 0x02, 0x03, 0x04, 0x05, 0x06, 0x07, 0x08],
      [], [0xC4, 0x01]);
  }

  /** LegacyLE: one-byte stream id. */
  lemma LegacyLEStreamIdLen1(t: Tables)
    requires ValidTables(t)
    ensures Passes(t, LegacyLEStreamIdLen1Vector())
  {
    LittleEndianBytes8(0x01, 0x02, 0x03, 0x04, 0x05, 0x06, 0x07, 0x08);
    LittleEndianBytes2(0xC4, 0x01);
    AcceptedVector(t, LegacyLEStreamIdLen1Vector(), LegacyLE, Flags(true, true, 0, 7), 0xFC,
      [0xF0], [0x01, 0x02, 0x03, 0x04, 0x05, 0x06, 0x07, 0x08],
      [0xC4, 0x01], []);
  }

  /** LegacyLE: every flag clear save the offset width. */
  lemma LegacyLEOnlyOffsetLen(t: Tables)
    requires ValidTables(t)
    ensures Passes(t, LegacyLEOnlyOffsetLenVector())
  {
    LittleEndianBytes2(0x55, 0x02);
    AcceptedVector(t, LegacyLEOnlyOffsetLenVector(), LegacyLE, Flags(false, false, 0, 1), 0x84,
      [0xF0], [0x55, 0x02],
      [], [0x03, 0x04, 0x05, 0x06, 0x07, 0x08, 0xC4, 0x01]);
  }

  /** LegacyLE: empty frame without FIN, length inferred. */
  lemma LegacyLESanityImplicitZero(t: Tables)
    requires ValidTables(t)
    ensures Passes(t, LegacyLESanityImplicitZeroVector())
  {
    RejectedVector(t, LegacyLESanityImplicitZeroVector(), LegacyLE, Flags(false, false, 0, 1), 0x84,
      [0xF0], [0x55, 0x02],
      [], []);
  }

  /** LegacyLE: empty frame without FIN, explicit zero length. */
  lemma LegacyLESanityExplicitZero(t: Tables)
    requires ValidTables(t)
    ensures Passes(t, LegacyLESanityExplicitZeroVector())
  {
    LittleEndianBytes2(0x00, 0x00);
    RejectedVector(t, LegacyLESanityExplicitZeroVector(), LegacyLE, Flags(false, true, 0, 1), 0xA4,
      [0xF0], [0x55, 0x02],
      [0x00, 0x00], []);
  }

  /** LegacyLE: explicit zero length with FIN. */
  lemma LegacyLESanityExplicitZeroFin(t: Tables)
    requires ValidTables(t)
    ensures Passes(t, LegacyLESanityExplicitZeroFinVector())
  {
    LittleEndianBytes2(0x55, 0x02);
    LittleEndianBytes2(0x00, 0x00);
    AcceptedVector(t, LegacyLESanityExplicitZeroFinVector(), LegacyLE, Flags(true, true, 0, 1), 0xE4,
      [0xF0], [0x55, 0x02],
      [0x00, 0x00], []);
  }

  /** LegacyLE: declared data exactly fills the packet. */
  lemma LegacyLEBoundsExact(t: Tables)
    requires ValidTables(t)
    ensures Passes(t, LegacyLEBoundsExactVector())
  {
    LittleEndianBytes2(0x55, 0x02);
    LittleEndianBytes2(0xFA, 0x01);
    AcceptedVector(t, LegacyLEBoundsExactVector(), LegacyLE, Flags(false, true, 0, 1), 0xA4,
      [0xF0], [0x55, 0x02],
      [0xFA, 0x01], []);
  }

  /** LegacyLE: declared data one byte past the packet. */
  lemma LegacyLEBoundsOver(t: Tables)
    requires ValidTables(t)
    ensures Passes(t, LegacyLEBoundsOverVector())
  {
    LittleEndianBytes2(0xFB, 0x01);
    RejectedVector(t, LegacyLEBoundsOverVector(), LegacyLE, Flags(false, true, 0, 1), 0xA4,
      [0xF0], [0x55, 0x02],
      [0xFB, 0x01], []);
  }

  /** LegacyBE: every flag set. */
  lemma LegacyBEAllBitsSet(t: Tables)
    requires ValidTables(t)
    ensures Passes(t, LegacyBEAllBitsSetVector())
  {
    BigEndianBytes4(0x00, 0x00, 0x02, 0x10);
    BigEndianBytes8(0x08, 0x07, 0x06, 0x05, 0x04, 0x03, 0x02, 0x01);
    BigEndianBytes2(0x01, 0xC4);
    AcceptedVector(t, LegacyBEAllBitsSetVector(), LegacyBE, Flags(true, true, 3, 7), 0xFF,
      [0x00, 0x00, 0x02, 0x10], [0x08, 0x07, 0x06, 0x05, 0x04, 0x03, 0x02, 0x01],
      [0x01, 0xC4], []);
  }

  /** LegacyBE: every flag set except FIN. */
  lemma LegacyBEAllBitsSetNoFin(t: Tables)
    requires ValidTables(t)
    ensures Passes(t, LegacyBEAllBitsSetNoFinVector())
  {
    BigEndianBytes4(0x00, 0x00, 0x02, 0x10);
    BigEndianBytes8(0x08, 0x07, 0x06, 0x05, 0x04, 0x03, 0x02, 0x01);
    BigEndianBytes2(0x01, 0xC4);
    AcceptedVector(t, LegacyBEAllBitsSetNoFinVector(), LegacyBE, Flags(false, true, 3, 7), 0xBF,
      [0x00, 0x00, 0x02, 0x10], [0x08, 0x07, 0x06, 0x05, 0x04, 0x03, 0x02, 0x01],
      [0x01, 0xC4], []);
  }

  /** LegacyBE: length bit clear: the data runs to the end of the packet. */
  lemma LegacyBEImplicitLength(t: Tables)
    requires ValidTables(t)
    ensures Passes(t, LegacyBEImplicitLengthVector())
  {
    BigEndianBytes4(0x00, 0x00, 0x02, 0x10);
    BigEndianBytes8(0x08, 0x07, 0x06, 0x05, 0x04, 0x03, 0x02, 0x01);
    AcceptedVector(t, LegacyBEImplicitLengthVector(), LegacyBE, Flags(true, false, 3, 7), 0xDF,
      [0x00, 0x00, 0x02, 0x10], [0x08, 0x07, 0x06, 0x05, 0x04, 0x03, 0x02, 0x01],
      [], [0xC4, 0x01]);
  }

  /** LegacyBE: one-byte stream id. */
  lemma LegacyBEStreamIdLen1(t: Tables)
    requires ValidTables(t)
    ensures Passes(t, LegacyBEStreamIdLen1Vector())
  {
    BigEndianBytes8(0x08, 0x07, 0x06, 0x05, 0x04, 0x03, 0x02, 0x01);
    BigEndianBytes2(0x01, 0xC4);
    AcceptedVector(t, LegacyBEStreamIdLen1Vector(), LegacyBE, Flags(true, true, 0, 7), 0xFC,
      [0xF0], [0x08, 0x07, 0x06, 0x05, 0x04, 0x03, 0x02, 0x01],
      [0x01, 0xC4], []);
  }

  /** LegacyBE: every flag clear save the offset width. */
  lemma LegacyBEOnlyOffsetLen(t: Tables)
    requires ValidTables(t)
    ensures Passes(t, LegacyBEOnlyOffsetLenVector())
  {
    BigEndianBytes2(0x02, 0x55);
    AcceptedVector(t, LegacyBEOnlyOffsetLenVector(), LegacyBE, Flags(false, false, 0, 1), 0x84,
      [0xF0], [0x02, 0x55],
      [], [0x03, 0x04, 0x05, 0x06, 0x07, 0x08, 0xC4, 0x01]);
  }

  /** LegacyBE: empty frame without FIN, length inferred. */
  lemma LegacyBESanityImplicitZero(t: Tables)
    requires ValidTables(t)
    ensures Passes(t, LegacyBESanityImplicitZeroVector())
  {
    RejectedVector(t, LegacyBESanityImplicitZeroVector(), LegacyBE, Flags(false, false, 0, 1), 0x84,
      [0xF0], [0x02, 0x55],
      [], []);
  }

  /** LegacyBE: empty frame without FIN, explicit zero length. */
  lemma LegacyBESanityExplicitZero(t: Tables)
    requires ValidTables(t)
    ensures Passes(t, LegacyBESanityExplicitZeroVector())
  {
    BigEndianBytes2(0x00, 0x00);
    RejectedVector(t, LegacyBESanityExplicitZeroVector(), LegacyBE, Flags(false, true, 0, 1), 0xA4,
      [0xF0], [0x02, 0x55],
      [0x00, 0x00], []);
  }

  /** LegacyBE: explicit zero length with FIN. */
  lemma LegacyBESanityExplicitZeroFin(t: Tables)
    requires ValidTables(t)
    ensures Passes(t, LegacyBESanityExplicitZeroFinVector())
  {
    BigEndianBytes2(0x02, 0x55);
    BigEndianBytes2(0x00, 0x00);
    AcceptedVector(t, LegacyBESanityExplicitZeroFinVector(), LegacyBE, Flags(true, true, 0, 1), 0xE4,
      [0xF0], [0x02, 0x55],
      [0x00, 0x00], []);
  }

  /** LegacyBE: declared data exactly fills the packet. */
  lemma LegacyBEBoundsExact(t: Tables)
    requires ValidTables(t)
    ensures Passes(t, LegacyBEBoundsExactVector())
  {
    BigEndianBytes2(0x02, 0x55);
    BigEndianBytes2(0x01, 0xFA);
    AcceptedVector(t, LegacyBEBoundsExactVector(), LegacyBE, Flags(false, true, 0, 1), 0xA4,
      [0xF0], [0x02, 0x55],
      [0x01, 0xFA], []);
  }

  /** LegacyBE: declared data one byte past the packet. */
  lemma LegacyBEBoundsOver(t: Tables)
    requires ValidTables(t)
    ensures Passes(t, LegacyBEBoundsOverVector())
  {
    BigEndianBytes2(0x01, 0xFB);
    RejectedVector(t, LegacyBEBoundsOverVector(), LegacyBE, Flags(false, true, 0, 1), 0xA4,
      [0xF0], [0x02, 0x55],
      [0x01, 0xFB], []);
  }

  /** Modern: every flag set. */
  lemma ModernAllBitsSet(t: Tables)
    requires ValidTables(t)
    ensures Passes(t, ModernAllBitsSetVector())
  {
    BigEndianBytes4(0x00, 0x00, 0x02, 0x10);
    BigEndianBytes8(0x08, 0x07, 0x06, 0x05, 0x04, 0x03, 0x02, 0x01);
    BigEndianBytes2(0x01, 0xC4);
    AcceptedVector(t, ModernAllBitsSetVector(), Modern, Flags(true, true, 3, 3), 0xFF,
      [0x00, 0x00, 0x02, 0x10], [0x08, 0x07, 0x06, 0x05, 0x04, 0x03, 0x02, 0x01],
      [0x01, 0xC4], []);
  }

  /** Modern: every flag set except FIN. */
  lemma ModernAllBitsSetNoFin(t: Tables)
    requires ValidTables(t)
    ensures Passes(t, ModernAllBitsSetNoFinVector())
  {
    BigEndianBytes4(0x00, 0x00, 0x02, 0x10);
    BigEndianBytes8(0x08, 0x07, 0x06, 0x05, 0x04, 0x03, 0x02, 0x01);
    BigEndianBytes2(0x01, 0xC4);
    AcceptedVector(t, ModernAllBitsSetNoFinVector(), Modern, Flags(false, true, 3, 3), 0xDF,
      [0x00, 0x00, 0x02, 0x10], [0x08, 0x07, 0x06, 0x05, 0x04, 0x03, 0x02, 0x01],
      [0x01, 0xC4], []);
  }

  /** Modern: length bit clear: the data runs to the end of the packet. */
  lemma ModernImplicitLength(t: Tables)
    requires ValidTables(t)
    ensures Passes(t, ModernImplicitLengthVector())
  {
    BigEndianBytes4(0x00, 0x00, 0x02, 0x10);
    BigEndianBytes8(0x08, 0x07, 0x06, 0x05, 0x04, 0x03, 0x02, 0x01);
    AcceptedVector(t, ModernImplicitLengthVector(), Modern, Flags(true, false, 3, 3), 0xFE,
      [0x00, 0x00, 0x02, 0x10], [0x08, 0x07, 0x06, 0x05, 0x04, 0x03, 0x02, 0x01],
      [], [0xC4, 0x01]);
  }

  /** Modern: one-byte stream id. */
  lemma ModernStreamIdLen1(t: Tables)
    requires ValidTables(t)
    ensures Passes(t, ModernStreamIdLen1Vector())
  {
    BigEndianBytes8(0x08, 0x07, 0x06, 0x05, 0x04, 0x03, 0x02, 0x01);
    BigEndianBytes2(0x01, 0xC4);
    AcceptedVector(t, ModernStreamIdLen1Vector(), Modern, Flags(true, true, 0, 3), 0xE7,
      [0xF0], [0x08, 0x07, 0x06, 0x05, 0x04, 0x03, 0x02, 0x01],
      [0x01, 0xC4], []);
  }

  /** Modern: every flag clear save the offset width. */
  lemma ModernOnlyOffsetLen(t: Tables)
    requires ValidTables(t)
    ensures Passes(t, ModernOnlyOffsetLenVector())
  {
    BigEndianBytes2(0x02, 0x55);
    AcceptedVector(t, ModernOnlyOffsetLenVector(), Modern, Flags(false, false, 0, 1), 0xC2,
      [0xF0], [0x02, 0x55],
      [], [0x03, 0x04, 0x05, 0x06, 0x07, 0x08, 0xC4, 0x01]);
  }

  /** Modern: empty frame without FIN, length inferred. */
  lemma ModernSanityImplicitZero(t: Tables)
    requires ValidTables(t)
    ensures Passes(t, ModernSanityImplicitZeroVector())
  {
    RejectedVector(t, ModernSanityImplicitZeroVector(), Modern, Flags(false, false, 0, 1), 0xC2,
      [0xF0], [0x02, 0x55],
      [], []);
  }

  /** Modern: empty frame without FIN, explicit zero length. */
  lemma ModernSanityExplicitZero(t: Tables)
    requires ValidTables(t)
    ensures Passes(t, ModernSanityExplicitZeroVector())
  {
    BigEndianBytes2(0x00, 0x00);
    RejectedVector(t, ModernSanityExplicitZeroVector(), Modern, Flags(false, true, 0, 1), 0xC3,
      [0xF0], [0x02, 0x55],
      [0x00, 0x00], []);
  }

  /** Modern: explicit zero length with FIN. */
  lemma ModernSanityExplicitZeroFin(t: Tables)
    requires ValidTables(t)
    ensures Passes(t, ModernSanityExplicitZeroFinVector())
  {
    BigEndianBytes2(0x02, 0x55);
    BigEndianBytes2(0x00, 0x00);
    AcceptedVector(t, ModernSanityExplicitZeroFinVector(), Modern, Flags(true, true, 0, 1), 0xE3,
      [0xF0], [0x02, 0x55],
      [0x00, 0x00], []);
  }

  /** Modern: declared data exactly fills the packet. */
  lemma ModernBoundsExact(t: Tables)
    requires ValidTables(t)
    ensures Passes(t, ModernBoundsExactVector())
  {
    BigEndianBytes2(0x02, 0x55);
    BigEndianBytes2(0x01, 0xFA);
    AcceptedVector(t, ModernBoundsExactVector(), Modern, Flags(false, true, 0, 1), 0xC3,
      [0xF0], [0x02, 0x55],
      [0x01, 0xFA], []);
  }

  /** Modern: declared data one byte past the packet. */
  lemma ModernBoundsOver(t: Tables)
    requires ValidTables(t)
    ensures Passes(t, ModernBoundsOverVector())
  {
    BigEndianBytes2(0x01, 0xFB);
    RejectedVector(t, ModernBoundsOverVector(), Modern, Flags(false, true, 0, 1), 0xC3,
      [0xF0], [0x02, 0x55],
      [0x01, 0xFB], []);
  }
}
