/** The STREAM-frame decoder (pf_parse_stream_frame) of every layout family:
    a stateless function of the width tables, the family, the frame's bytes
    and the number of bytes left in the packet from the frame's first byte. */
module StreamParse {
  import opened Wire
  import opened Layout

  datatype Option<+T> = None | Some(value: T)

  /** The frame's back-reference to its packet (packet_in).  The decoder
      only ever stores the null reference. */
  datatype PacketRef = NullPacket | Packet(handle: nat)

  /** stream_frame_t: the stream id and the data_frame fields. */
  datatype StreamFrame = StreamFrame(
    streamId: nat,
    dfOffset: nat,
    dfSize: nat,
    dfFin: bool,
    dfReadOff: nat,
    packetIn: PacketRef)

  /** A successful decode: the frame and the number of bytes it occupies
      (header plus data), the decoder's non-negative return value. */
  datatype Parsed = Parsed(frame: StreamFrame, consumed: nat)

  /** Position of the offset field and of the data-length field. */
  function OffStart(t: Tables, f: Family, fl: Flags): (n: nat)
    requires ValidTables(t) && ValidFlags(f, fl)
  {
    1 + SidWidth(t, f, fl.sidSel)
  }

  function LenStart(t: Tables, f: Family, fl: Flags): (n: nat)
    requires ValidTables(t) && ValidFlags(f, fl)
  {
    OffStart(t, f, fl) + OffWidth(t, f, fl.offSel)
  }

  /** The header of buf fits in both the bytes held and the packet. */
  predicate HeaderFits(t: Tables, f: Family, buf: seq<byte>, rem: nat)
    requires ValidTables(t)
  {
    |buf| >= 1 && HeaderLen(t, f, ParseFlags(f, buf[0])) <= rem
    && HeaderLen(t, f, ParseFlags(f, buf[0])) <= |buf|
  }

  function FlagsOf(f: Family, buf: seq<byte>): Flags
    requires |buf| >= 1
  {
    ParseFlags(f, buf[0])
  }

  function SidField(t: Tables, f: Family, buf: seq<byte>): (s: seq<byte>)
    requires ValidTables(t) && |buf| >= 1 && HeaderLen(t, f, FlagsOf(f, buf)) <= |buf|
    ensures |s| == SidWidth(t, f, FlagsOf(f, buf).sidSel)
  {
    buf[1..OffStart(t, f, FlagsOf(f, buf))]
  }

  function OffField(t: Tables, f: Family, buf: seq<byte>): (s: seq<byte>)
    requires ValidTables(t) && |buf| >= 1 && HeaderLen(t, f, FlagsOf(f, buf)) <= |buf|
    ensures |s| == OffWidth(t, f, FlagsOf(f, buf).offSel)
  {
    var fl := FlagsOf(f, buf);
    buf[OffStart(t, f, fl)..LenStart(t, f, fl)]
  }

  function LenField(t: Tables, f: Family, buf: seq<byte>): (s: seq<byte>)
    requires ValidTables(t) && |buf| >= 1 && HeaderLen(t, f, FlagsOf(f, buf)) <= |buf|
    requires FlagsOf(f, buf).hasLen
    ensures |s| == LenWidth
  {
    var fl := FlagsOf(f, buf);
    buf[LenStart(t, f, fl)..LenStart(t, f, fl) + LenWidth]
  }

  /** The data length: read from the header when the length bit is set,
      otherwise everything left in the packet after the header. */
  function DataLen(t: Tables, f: Family, buf: seq<byte>, rem: nat): (n: nat)
    requires ValidTables(t) && HeaderFits(t, f, buf, rem)
  {
    var fl := FlagsOf(f, buf);
    if fl.hasLen then Read(Order(f), LenField(t, f, buf))
    else rem - HeaderLen(t, f, fl)
  }

  /** Decode one STREAM frame of layout family f.  None is the decoder's
      negative return. */
  function DecodeFamily(t: Tables, f: Family, buf: seq<byte>, rem: nat): (r: Option<Parsed>)
    requires ValidTables(t)
    ensures r.Some? ==> HeaderFits(t, f, buf, rem)
    ensures r.Some? ==> var p := r.value;
      && p.consumed == HeaderLen(t, f, FlagsOf(f, buf)) + p.frame.dfSize
      && p.consumed <= rem
      && (p.frame.dfFin || p.frame.dfSize > 0)
      && p.frame.dfReadOff == 0 && p.frame.packetIn == NullPacket
  {
    if |buf| == 0 || rem == 0 then None
    else
      var fl := FlagsOf(f, buf);
      var hdr := HeaderLen(t, f, fl);
      if hdr > rem || hdr > |buf| then None
      else
        var size := DataLen(t, f, buf, rem);
        if size > rem - hdr then None
        else if size == 0 && !fl.fin then None
        else
          var frame := StreamFrame(
            Read(Order(f), SidField(t, f, buf)),
            Read(Order(f), OffField(t, f, buf)),
            size, fl.fin, 0, NullPacket);
          Some(Parsed(frame, hdr + size))
  }

  /** pf_parse_stream_frame of the decoder that the version selects. */
  function Decode(t: Tables, v: Version, buf: seq<byte>, rem: nat): (r: Option<Parsed>)
    requires ValidTables(t)
    ensures r.Some? ==> HeaderFits(t, SelectFamily(v), buf, rem)
    ensures r.Some? ==> var p := r.value;
      && p.consumed == HeaderLen(t, SelectFamily(v), FlagsOf(SelectFamily(v), buf)) + p.frame.dfSize
      && p.consumed <= rem
      && (p.frame.dfFin || p.frame.dfSize > 0)
      && p.frame.dfReadOff == 0 && p.frame.packetIn == NullPacket
  {
    DecodeFamily(t, SelectFamily(v), buf, rem)
  }

  /** The accepting branch of the decoder, stated over the values read
      from the header. */
  lemma DecodeAccepts(t: Tables, f: Family, buf: seq<byte>, rem: nat,
                      fl: Flags, sid: nat, off: nat, size: nat)
    requires ValidTables(t) && HeaderFits(t, f, buf, rem) && FlagsOf(f, buf) == fl
    requires Read(Order(f), SidField(t, f, buf)) == sid && Read(Order(f), OffField(t, f, buf)) == off
    requires DataLen(t, f, buf, rem) == size
    requires HeaderLen(t, f, fl) + size <= rem && (fl.fin || size > 0)
    ensures DecodeFamily(t, f, buf, rem)
         == Some(Parsed(StreamFrame(sid, off, size, fl.fin, 0, NullPacket), HeaderLen(t, f, fl) + size))
  {
  }

  /** The rejecting branches of the decoder once the header fits: data that
      runs past the packet, or an empty frame without FIN. */
  lemma DecodeRejects(t: Tables, f: Family, buf: seq<byte>, rem: nat, fl: Flags, size: nat)
    requires ValidTables(t) && HeaderFits(t, f, buf, rem) && FlagsOf(f, buf) == fl
    requires DataLen(t, f, buf, rem) == size
    requires HeaderLen(t, f, fl) + size > rem || (size == 0 && !fl.fin)
    ensures DecodeFamily(t, f, buf, rem) == None
  {
  }

  /** Where the fields of a buffer built as type byte, stream id, offset,
      length and anything else land. */
  lemma HeaderOfParts(t: Tables, f: Family, fl: Flags, tb: byte,
                      sidF: seq<byte>, offF: seq<byte>, lenF: seq<byte>, rest: seq<byte>)
    requires ValidTables(t) && ParseFlags(f, tb) == fl
    requires |sidF| == SidWidth(t, f, fl.sidSel) && |offF| == OffWidth(t, f, fl.offSel)
    requires if fl.hasLen then |lenF| == LenWidth else lenF == []
    ensures var buf := [tb] + sidF + offF + lenF + rest;
      && |buf| >= 1 && FlagsOf(f, buf) == fl && HeaderLen(t, f, fl) <= |buf|
      && SidField(t, f, buf) == sidF && OffField(t, f, buf) == offF
      && (fl.hasLen ==> LenField(t, f, buf) == lenF)
  {
    ConcatSlices(tb, sidF, offF, lenF, rest);
    assert OffStart(t, f, fl) == 1 + |sidF|;
    assert LenStart(t, f, fl) == 1 + |sidF| + |offF|;
  }

  lemma ConcatSlices(tb: byte, b: seq<byte>, c: seq<byte>, d: seq<byte>, e: seq<byte>)
    ensures var s := [tb] + b + c + d + e;
      && s[0] == tb
      && s[1..1 + |b|] == b
      && s[1 + |b|..1 + |b| + |c|] == c
      && s[1 + |b| + |c|..1 + |b| + |c| + |d|] == d
  {
  }
}
