/** The three STREAM-frame header layouts, the version dispatch that picks
    one, and the width tables that turn a header selector into a byte count. */
module Layout {
  import opened Wire

  /** The protocol versions whose decoders the unit test exercises. */
  datatype Version = Q037 | Q039 | Q041

  /** The layout families:
        LegacyLE  type byte 1fdoooss, fields little-endian;
        LegacyBE  type byte 1fdoooss, fields big-endian;
        Modern    type byte 11FSSOOD, fields big-endian. */
  datatype Family = LegacyLE | LegacyBE | Modern

  /** The version dispatch: select_pf_by_ver, restricted to the STREAM-frame
      decoder and to the versions above. */
  function SelectFamily(v: Version): (f: Family)
    ensures (f == LegacyLE) <==> v == Q037
    ensures (f == Modern) <==> v == Q041
  {
    match v
    case Q037 => LegacyLE
    case Q039 => LegacyBE
    case Q041 => Modern
  }

  function Order(f: Family): (o: ByteOrder)
    ensures o == LittleEndian <==> f == LegacyLE
  {
    if f == LegacyLE then LittleEndian else BigEndian
  }

  /** What the type byte says about the rest of the header. */
  datatype Flags = Flags(fin: bool, hasLen: bool, sidSel: byte, offSel: byte)

  /** Number of distinct stream-id and offset selectors of a family
      (two bits each, except the legacy three-bit offset selector).  Every
      family has a two-bit stream-id selector; the parameter mirrors
      OffSelectors. */
  function SidSelectors(f: Family): byte { 4 }

  function OffSelectors(f: Family): byte
  {
    if f == Modern then 4 else 8
  }

  /** Shift-and-mask extraction of the header fields from the type byte. */
  function ParseFlags(f: Family, b: byte): (fl: Flags)
    ensures fl.sidSel < SidSelectors(f) && fl.offSel < OffSelectors(f)
  {
    if f == Modern then
      // 11FSSOOD
      Flags(b & 0x20 != 0, b & 0x01 != 0, (b >> 3) & 3, (b >> 1) & 3)
    else
      // 1fdoooss
      Flags(b & 0x40 != 0, b & 0x20 != 0, b & 3, (b >> 2) & 7)
  }

  /** Bits of the type byte that carry no header field: the frame-type
      prefix (1 for the legacy layouts, 11 for the modern one). */
  function TypePrefix(f: Family): byte
  {
    if f == Modern then 0xC0 else 0x80
  }

  predicate ValidFlags(f: Family, fl: Flags)
  {
    fl.sidSel < SidSelectors(f) && fl.offSel < OffSelectors(f)
  }

  /** The type byte that carries the given flags: ParseFlags' inverse. */
  function TypeByte(f: Family, fl: Flags): (b: byte)
    requires ValidFlags(f, fl)
  {
    var fin: byte := if fl.fin then 1 else 0;
    var d: byte := if fl.hasLen then 1 else 0;
    var s := fl.sidSel;
    var o := fl.offSel;
    if f == Modern then
      TypePrefix(f) | (fin << 5) | (s << 3) | (o << 1) | d
    else
      TypePrefix(f) | (fin << 6) | (d << 5) | (o << 2) | s
  }

  lemma ParseTypeByte(f: Family, fl: Flags)
    requires ValidFlags(f, fl)
    ensures ParseFlags(f, TypeByte(f, fl)) == fl
  {
  }

  /** Every type byte is the encoding of its flags, up to the prefix bits,
      which the decoder ignores. */
  lemma TypeByteOfParse(f: Family, b: byte)
    ensures TypeByte(f, ParseFlags(f, b)) == b | TypePrefix(f)
  {
  }

  /** Selector-to-width tables.  Only the entries the unit test exercises are
      fixed (see ValidTables); the rest are left as parameters. */
  datatype Widths = Widths(sid: seq<nat>, off: seq<nat>)

  datatype Tables = Tables(legacy: Widths, modern: Widths)

  /** The largest width any table entry may give. */
  const MaxWidth: nat := 8

  predicate Bounded(ws: seq<nat>)
  {
    forall i :: 0 <= i < |ws| ==> ws[i] <= MaxWidth
  }

  /** The tables agree with every entry the vectors exercise: in each
      family the narrowest stream-id selector gives 1 byte and the widest
      4, offset selector 1 gives 2 bytes and the widest offset selector 8;
      no entry exceeds MaxWidth.  Each table has one entry per selector a
      type byte can carry, and the two legacy layouts share one table. */
  predicate ValidTables(t: Tables)
    ensures ValidTables(t) ==>
      && TableOf(t, LegacyLE) == TableOf(t, LegacyBE)
      && |TableOf(t, LegacyLE).sid| == SidSelectors(LegacyLE) as nat
      && |TableOf(t, LegacyLE).off| == OffSelectors(LegacyLE) as nat
      && |TableOf(t, Modern).sid| == SidSelectors(Modern) as nat
      && |TableOf(t, Modern).off| == OffSelectors(Modern) as nat
      && TableOf(t, LegacyLE).sid[0] == 1 && TableOf(t, LegacyLE).off[OffSelectors(LegacyLE) - 1] == 8
      && TableOf(t, Modern).sid[0] == 1 && TableOf(t, Modern).off[OffSelectors(Modern) - 1] == 8
  {
    && |t.legacy.sid| == 4 && |t.legacy.off| == 8
    && |t.modern.sid| == 4 && |t.modern.off| == 4
    && Bounded(t.legacy.sid) && Bounded(t.legacy.off)
    && Bounded(t.modern.sid) && Bounded(t.modern.off)
    // legacy ss: 0 -> 1 byte, 3 -> 4 bytes
    && t.legacy.sid[0] == 1 && t.legacy.sid[3] == 4
    // legacy ooo: 1 -> 2 bytes, 7 -> 8 bytes
    && t.legacy.off[1] == 2 && t.legacy.off[7] == 8
    // modern SS: 0 -> 1 byte, 3 -> 4 bytes
    && t.modern.sid[0] == 1 && t.modern.sid[3] == 4
    // modern OO: 1 -> 2 bytes, 3 -> 8 bytes
    && t.modern.off[1] == 2 && t.modern.off[3] == 8
  }

  function TableOf(t: Tables, f: Family): Widths
  {
    if f == Modern then t.modern else t.legacy
  }

  function SidWidth(t: Tables, f: Family, sel: byte): (w: nat)
    requires ValidTables(t) && sel < SidSelectors(f)
    ensures w <= MaxWidth
  {
    TableOf(t, f).sid[sel as nat]
  }

  function OffWidth(t: Tables, f: Family, sel: byte): (w: nat)
    requires ValidTables(t) && sel < OffSelectors(f)
    ensures w <= MaxWidth
  {
    TableOf(t, f).off[sel as nat]
  }

  /** Width of the explicit data-length field: two bytes in every layout. */
  const LenWidth: nat := 2

  /** Bytes of header that precede the payload: type byte, stream id, offset
      and, when present, the data length. */
  function HeaderLen(t: Tables, f: Family, fl: Flags): (n: nat)
    requires ValidTables(t) && ValidFlags(f, fl)
    ensures 1 <= n <= 1 + 2 * MaxWidth + LenWidth
  {
    1 + SidWidth(t, f, fl.sidSel) + OffWidth(t, f, fl.offSel) + (if fl.hasLen then LenWidth else 0)
  }
}
