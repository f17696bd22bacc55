/** The STREAM-frame header as the unit test's vectors build it, and the two
    round trips that tie it to the decoder: every header built from fields
    the widths can carry decodes to those fields, and every header the
    decoder accepts is such a header. */
module StreamGen {
  import opened Wire
  import opened Layout
  import opened StreamParse

  /** The header bytes for the given flags and field values. */
  function EncodeHeader(t: Tables, f: Family, fl: Flags, sid: nat, off: nat, len: nat): (h: seq<byte>)
    requires ValidTables(t) && ValidFlags(f, fl)
    ensures |h| == HeaderLen(t, f, fl)
  {
    [TypeByte(f, fl)]
      + Write(Order(f), sid, SidWidth(t, f, fl.sidSel))
      + Write(Order(f), off, OffWidth(t, f, fl.offSel))
      + (if fl.hasLen then Write(Order(f), len, LenWidth) else [])
  }

  /** Field values a header with these flags can carry to a decoder that has
      rem bytes of packet: each value fits its width, the data fits in the
      packet (and fills it when its length is implicit), and an empty frame
      carries FIN. */
  predicate Encodable(t: Tables, f: Family, fl: Flags, sid: nat, off: nat, size: nat, rem: nat)
    requires ValidTables(t) && ValidFlags(f, fl)
  {
    var hdr := HeaderLen(t, f, fl);
    && sid < Pow256(SidWidth(t, f, fl.sidSel))
    && off < Pow256(OffWidth(t, f, fl.offSel))
    && hdr + size <= rem
    && (fl.hasLen ==> size < Pow256(LenWidth))
    && (!fl.hasLen ==> hdr + size == rem)
    && (fl.fin || size > 0)
  }

  /** Decoding a header built from encodable fields, followed by any bytes,
      gives back exactly those fields. */
  lemma DecodeEncode(t: Tables, f: Family, fl: Flags, sid: nat, off: nat, size: nat, rem: nat, payload: seq<byte>)
    requires ValidTables(t) && ValidFlags(f, fl)
    requires Encodable(t, f, fl, sid, off, size, rem)
    ensures DecodeFamily(t, f, EncodeHeader(t, f, fl, sid, off, size) + payload, rem)
         == Some(Parsed(StreamFrame(sid, off, size, fl.fin, 0, NullPacket), HeaderLen(t, f, fl) + size))
  {
    var o := Order(f);
    var buf := EncodeHeader(t, f, fl, sid, off, size) + payload;
    EncodedFields(t, f, fl, sid, off, size, payload);
    ReadWrite(o, sid, SidWidth(t, f, fl.sidSel));
    ReadWrite(o, off, OffWidth(t, f, fl.offSel));
    if fl.hasLen {
      ReadWrite(o, size, LenWidth);
    }
    DecodeAccepts(t, f, buf, rem, fl, sid, off, size);
  }

  /** Where EncodeHeader puts the type byte and the fields. */
  lemma EncodedFields(t: Tables, f: Family, fl: Flags, sid: nat, off: nat, size: nat, payload: seq<byte>)
    requires ValidTables(t) && ValidFlags(f, fl)
    ensures var buf := EncodeHeader(t, f, fl, sid, off, size) + payload;
      && |buf| >= 1 && FlagsOf(f, buf) == fl && HeaderLen(t, f, fl) <= |buf|
      && SidField(t, f, buf) == Write(Order(f), sid, SidWidth(t, f, fl.sidSel))
      && OffField(t, f, buf) == Write(Order(f), off, OffWidth(t, f, fl.offSel))
      && (fl.hasLen ==> LenField(t, f, buf) == Write(Order(f), size, LenWidth))
  {
    var o := Order(f);
    var s, of := Write(o, sid, SidWidth(t, f, fl.sidSel)), Write(o, off, OffWidth(t, f, fl.offSel));
    var l := if fl.hasLen then Write(o, size, LenWidth) else [];
    assert EncodeHeader(t, f, fl, sid, off, size) + payload == [TypeByte(f, fl)] + s + of + l + payload;
    ParseTypeByte(f, fl);
    HeaderOfParts(t, f, fl, TypeByte(f, fl), s, of, l, payload);
  }

  /** Every header the decoder accepts is the encoding of the fields it
      reports (with the frame-type prefix bits, which the decoder does not
      inspect, set), and those fields are encodable. */
  lemma EncodeDecode(t: Tables, f: Family, buf: seq<byte>, rem: nat)
    requires ValidTables(t)
    requires DecodeFamily(t, f, buf, rem).Some?
    ensures var fl := FlagsOf(f, buf);
      var fr := DecodeFamily(t, f, buf, rem).value.frame;
      && Encodable(t, f, fl, fr.streamId, fr.dfOffset, fr.dfSize, rem)
      && EncodeHeader(t, f, fl, fr.streamId, fr.dfOffset, fr.dfSize)
         == [buf[0] | TypePrefix(f)] + buf[1..HeaderLen(t, f, fl)]
  {
    var fl := FlagsOf(f, buf);
    var fr := DecodeFamily(t, f, buf, rem).value.frame;
    DecodedFields(t, f, buf, rem);
    FieldsEncodable(t, f, buf, rem, fr.streamId, fr.dfOffset, fr.dfSize, fr.dfFin);
    HeaderIsEncoding(t, f, buf, fr.streamId, fr.dfOffset, fr.dfSize);
  }

  lemma FieldsEncodable(t: Tables, f: Family, buf: seq<byte>, rem: nat, sid: nat, off: nat, size: nat, fin: bool)
    requires ValidTables(t) && |buf| >= 1 && HeaderLen(t, f, FlagsOf(f, buf)) <= |buf|
    requires sid == Read(Order(f), SidField(t, f, buf))
    requires off == Read(Order(f), OffField(t, f, buf))
    requires fin == FlagsOf(f, buf).fin
    requires FlagsOf(f, buf).hasLen ==> size == Read(Order(f), LenField(t, f, buf))
    requires !FlagsOf(f, buf).hasLen ==> HeaderLen(t, f, FlagsOf(f, buf)) + size == rem
    requires HeaderLen(t, f, FlagsOf(f, buf)) + size <= rem && (fin || size > 0)
    ensures Encodable(t, f, FlagsOf(f, buf), sid, off, size, rem)
  {
    assert Pow256(LenWidth) == 65536;
  }

  lemma {:induction false} HeaderIsEncoding(t: Tables, f: Family, buf: seq<byte>, sid: nat, off: nat, size: nat)
    requires ValidTables(t) && |buf| >= 1 && HeaderLen(t, f, FlagsOf(f, buf)) <= |buf|
    requires sid == Read(Order(f), SidField(t, f, buf))
    requires off == Read(Order(f), OffField(t, f, buf))
    requires FlagsOf(f, buf).hasLen ==> size == Read(Order(f), LenField(t, f, buf))
    ensures EncodeHeader(t, f, FlagsOf(f, buf), sid, off, size)
         == [buf[0] | TypePrefix(f)] + buf[1..HeaderLen(t, f, FlagsOf(f, buf))]
  {
    var fl := FlagsOf(f, buf);
    TypeByteOfParse(f, buf[0]);
    HeaderParts(t, f, buf);
    EncodingOfFields(t, f, fl, buf[0] | TypePrefix(f), SidField(t, f, buf), OffField(t, f, buf),
      if fl.hasLen then LenField(t, f, buf) else [], sid, off, size);
    Regroup(buf[0] | TypePrefix(f), SidField(t, f, buf), OffField(t, f, buf),
      if fl.hasLen then LenField(t, f, buf) else []);
  }

  /** EncodeHeader writes back the field bytes whose values it is given. */
  lemma {:induction false} EncodingOfFields(t: Tables, f: Family, fl: Flags, b0: byte,
                                            sidF: seq<byte>, offF: seq<byte>, lenF: seq<byte>,
                                            sid: nat, off: nat, size: nat)
    requires ValidTables(t) && ValidFlags(f, fl) && TypeByte(f, fl) == b0
    requires |sidF| == SidWidth(t, f, fl.sidSel) && sid == Read(Order(f), sidF)
    requires |offF| == OffWidth(t, f, fl.offSel) && off == Read(Order(f), offF)
    requires fl.hasLen ==> |lenF| == LenWidth && size == Read(Order(f), lenF)
    requires !fl.hasLen ==> lenF == []
    ensures EncodeHeader(t, f, fl, sid, off, size) == [b0] + sidF + offF + lenF
  {
    var o := Order(f);
    WriteRead(o, sidF);
    WriteRead(o, offF);
    var l := if fl.hasLen then Write(o, size, LenWidth) else [];
    if fl.hasLen {
      WriteRead(o, lenF);
    }
    assert l == lenF;
  }

  lemma Regroup(b0: byte, s: seq<byte>, o: seq<byte>, l: seq<byte>)
    ensures [b0] + (s + o + l) == [b0] + s + o + l
  {
  }

  /** The fields of an accepted frame are the values of its header fields. */
  lemma DecodedFields(t: Tables, f: Family, buf: seq<byte>, rem: nat)
    requires ValidTables(t)
    requires DecodeFamily(t, f, buf, rem).Some?
    ensures var fr := DecodeFamily(t, f, buf, rem).value.frame;
      && fr.streamId == Read(Order(f), SidField(t, f, buf))
      && fr.dfOffset == Read(Order(f), OffField(t, f, buf))
      && fr.dfSize == DataLen(t, f, buf, rem)
      && fr.dfFin == FlagsOf(f, buf).fin
      && (FlagsOf(f, buf).hasLen ==> fr.dfSize == Read(Order(f), LenField(t, f, buf)))
  {
  }

  /** The header after the type byte is the three fields, back to back. */
  lemma HeaderParts(t: Tables, f: Family, buf: seq<byte>)
    requires ValidTables(t) && |buf| >= 1 && HeaderLen(t, f, FlagsOf(f, buf)) <= |buf|
    ensures buf[1..HeaderLen(t, f, FlagsOf(f, buf))]
         == SidField(t, f, buf) + OffField(t, f, buf)
            + (if FlagsOf(f, buf).hasLen then LenField(t, f, buf) else [])
  {
  }
}
