/** What the decoder promises for every input: the length-inference rule,
    the zero-length sanity rule, the exact packet bound, rejection of
    truncated headers, and that nothing past the header is read. */
module StreamProps {
  import opened Wire
  import opened Layout
  import opened StreamParse

  /** A header that does not fit in the packet or in the bytes held is
      rejected. */
  lemma TruncatedHeaderRejected(t: Tables, f: Family, buf: seq<byte>, rem: nat)
    requires ValidTables(t)
    requires !HeaderFits(t, f, buf, rem)
    ensures DecodeFamily(t, f, buf, rem) == None
  {
  }

  /** Without the length bit the data runs to the end of the packet: the
      frame is accepted exactly when FIN is set or at least one data byte
      remains, and then its size is what is left after the header. */
  lemma {:induction false} InferredLength(t: Tables, f: Family, buf: seq<byte>, rem: nat)
    requires ValidTables(t) && HeaderFits(t, f, buf, rem)
    requires !FlagsOf(f, buf).hasLen
    ensures var hdr := HeaderLen(t, f, FlagsOf(f, buf));
      var r := DecodeFamily(t, f, buf, rem);
      && (r.Some? <==> FlagsOf(f, buf).fin || hdr < rem)
      && (r.Some? ==> r.value.frame.dfSize == rem - hdr && r.value.consumed == rem)
  {
  }

  /** With the length bit the bound on the declared length is exact: the
      frame is accepted exactly when header plus declared length fit in the
      packet and the frame is not an empty one without FIN. */
  lemma ExplicitLengthBound(t: Tables, f: Family, buf: seq<byte>, rem: nat)
    requires ValidTables(t) && HeaderFits(t, f, buf, rem)
    requires FlagsOf(f, buf).hasLen
    ensures var hdr := HeaderLen(t, f, FlagsOf(f, buf));
      var n := Read(Order(f), LenField(t, f, buf));
      var r := DecodeFamily(t, f, buf, rem);
      && (r.Some? <==> hdr + n <= rem && (n > 0 || FlagsOf(f, buf).fin))
      && (r.Some? ==> r.value.frame.dfSize == n)
  {
  }

  /** An empty frame without FIN is rejected, whether the length is
      inferred (the packet ends with the header) or an explicit zero. */
  lemma EmptyWithoutFinRejected(t: Tables, f: Family, buf: seq<byte>, rem: nat)
    requires ValidTables(t) && HeaderFits(t, f, buf, rem)
    requires !FlagsOf(f, buf).fin
    requires FlagsOf(f, buf).hasLen ==> Read(Order(f), LenField(t, f, buf)) == 0
    requires !FlagsOf(f, buf).hasLen ==> rem == HeaderLen(t, f, FlagsOf(f, buf))
    ensures DecodeFamily(t, f, buf, rem) == None
  {
  }

  /** An explicit zero length with FIN is a valid, empty frame. */
  lemma EmptyWithFinAccepted(t: Tables, f: Family, buf: seq<byte>, rem: nat)
    requires ValidTables(t) && HeaderFits(t, f, buf, rem)
    requires FlagsOf(f, buf).fin && FlagsOf(f, buf).hasLen
    requires Read(Order(f), LenField(t, f, buf)) == 0
    ensures var r := DecodeFamily(t, f, buf, rem);
      r.Some? && r.value.frame.dfSize == 0 && r.value.consumed == HeaderLen(t, f, FlagsOf(f, buf))
  {
  }

  /** The decoder reads only the header: replacing everything after it
      (the payload, or bytes where a length field would be when the length
      bit is clear) does not change the result. */
  lemma TrailingBytesIgnored(t: Tables, f: Family, buf: seq<byte>, rest: seq<byte>, rem: nat)
    requires ValidTables(t) && |buf| >= 1
    requires HeaderLen(t, f, FlagsOf(f, buf)) <= |buf|
    ensures DecodeFamily(t, f, buf[..HeaderLen(t, f, FlagsOf(f, buf))] + rest, rem)
         == DecodeFamily(t, f, buf, rem)
  {
    var fl := FlagsOf(f, buf);
    var hdr := HeaderLen(t, f, fl);
    var buf' := buf[..hdr] + rest;
    assert buf'[..hdr] == buf[..hdr];
    assert FlagsOf(f, buf') == fl;
    SliceOfCommonPrefix(buf', buf, hdr, 1, OffStart(t, f, fl));
    SliceOfCommonPrefix(buf', buf, hdr, OffStart(t, f, fl), LenStart(t, f, fl));
    if fl.hasLen {
      SliceOfCommonPrefix(buf', buf, hdr, LenStart(t, f, fl), LenStart(t, f, fl) + LenWidth);
    }
    SameFieldsSameDecode(t, f, buf', buf, rem);
  }

  lemma SliceOfCommonPrefix(a: seq<byte>, b: seq<byte>, n: nat, i: nat, j: nat)
    requires n <= |a| && n <= |b| && a[..n] == b[..n] && i <= j <= n
    ensures a[i..j] == b[i..j]
  {
    assert forall k :: i <= k < j ==> a[k] == a[..n][k] && b[k] == b[..n][k];
  }

  /** Two buffers with the same type byte, header fields and header room
      decode alike. */
  lemma SameFieldsSameDecode(t: Tables, f: Family, a: seq<byte>, b: seq<byte>, rem: nat)
    requires ValidTables(t) && |a| >= 1 && |b| >= 1 && a[0] == b[0]
    requires HeaderLen(t, f, FlagsOf(f, a)) <= |a| && HeaderLen(t, f, FlagsOf(f, b)) <= |b|
    requires SidField(t, f, a) == SidField(t, f, b) && OffField(t, f, a) == OffField(t, f, b)
    requires FlagsOf(f, a).hasLen ==> LenField(t, f, a) == LenField(t, f, b)
    ensures DecodeFamily(t, f, a, rem) == DecodeFamily(t, f, b, rem)
  {
    assert ViewOf(t, f, a) == ViewOf(t, f, b);
    SameViewSameDecode(t, f, f, a, b, rem);
  }

  /** What the decoder reads from a header whose bytes are all present:
      the flags and the values of the three fields (0 for an absent length
      field). */
  datatype HeaderView = HeaderView(flags: Flags, sid: nat, off: nat, len: nat)

  function ViewOf(t: Tables, f: Family, buf: seq<byte>): (v: HeaderView)
    requires ValidTables(t) && |buf| >= 1 && HeaderLen(t, f, FlagsOf(f, buf)) <= |buf|
    ensures ValidFlags(f, v.flags)
  {
    var fl := FlagsOf(f, buf);
    HeaderView(fl, Read(Order(f), SidField(t, f, buf)), Read(Order(f), OffField(t, f, buf)),
      if fl.hasLen then Read(Order(f), LenField(t, f, buf)) else 0)
  }

  /** The decoder's result depends only on what it reads from the header:
      two buffers whose views agree decode alike under families that share
      a width table (one family, or the two legacy ones). */
  lemma SameViewSameDecode(t: Tables, f: Family, g: Family, a: seq<byte>, b: seq<byte>, rem: nat)
    requires ValidTables(t) && TableOf(t, f) == TableOf(t, g)
    requires |a| >= 1 && HeaderLen(t, f, FlagsOf(f, a)) <= |a|
    requires |b| >= 1 && HeaderLen(t, g, FlagsOf(g, b)) <= |b|
    requires ViewOf(t, f, a) == ViewOf(t, g, b)
    ensures DecodeFamily(t, f, a, rem) == DecodeFamily(t, g, b, rem)
  {
    var v := ViewOf(t, f, a);
    var fl := v.flags;
    var hdr := HeaderLen(t, f, fl);
    assert HeaderLen(t, g, fl) == hdr;
    if hdr <= rem {
      var size := if fl.hasLen then v.len else rem - hdr;
      ReadView(t, f, a, rem);
      ReadView(t, g, b, rem);
      if hdr + size <= rem && (fl.fin || size > 0) {
        DecodeAccepts(t, f, a, rem, fl, v.sid, v.off, size);
        DecodeAccepts(t, g, b, rem, fl, v.sid, v.off, size);
      } else {
        DecodeRejects(t, f, a, rem, fl, size);
        DecodeRejects(t, g, b, rem, fl, size);
      }
    } else {
      TruncatedHeaderRejected(t, f, a, rem);
      TruncatedHeaderRejected(t, g, b, rem);
    }
  }

  /** What ViewOf records is what the decoder reads. */
  lemma ReadView(t: Tables, f: Family, buf: seq<byte>, rem: nat)
    requires ValidTables(t) && |buf| >= 1 && HeaderLen(t, f, FlagsOf(f, buf)) <= |buf|
    requires HeaderLen(t, f, FlagsOf(f, buf)) <= rem
    ensures var v := ViewOf(t, f, buf);
      && FlagsOf(f, buf) == v.flags
      && Read(Order(f), SidField(t, f, buf)) == v.sid
      && Read(Order(f), OffField(t, f, buf)) == v.off
      && DataLen(t, f, buf, rem) == if v.flags.hasLen then v.len else rem - HeaderLen(t, f, v.flags)
  {
  }

  /** buf with every multi-byte header field of the legacy layout written
      in the opposite byte order; the type byte and the payload are kept. */
  function SwapFieldOrder(t: Tables, buf: seq<byte>): (r: seq<byte>)
    requires ValidTables(t)
    ensures |r| == |buf|
  {
    if |buf| == 0 || HeaderLen(t, LegacyLE, FlagsOf(LegacyLE, buf)) > |buf| then buf
    else
      var fl := FlagsOf(LegacyLE, buf);
      var hdr := HeaderLen(t, LegacyLE, fl);
      [buf[0]] + Reverse(SidField(t, LegacyLE, buf)) + Reverse(OffField(t, LegacyLE, buf))
        + (if fl.hasLen then Reverse(LenField(t, LegacyLE, buf)) else [])
        + buf[hdr..]
  }

  /** The two legacy layouts differ only in byte order: a little-endian
      frame and the same frame with each field byte-swapped decode to the
      same stream id, offset, size and FIN, with the same byte count. */
  lemma LegacyByteOrderSymmetry(t: Tables, buf: seq<byte>, rem: nat)
    requires ValidTables(t)
    ensures DecodeFamily(t, LegacyBE, SwapFieldOrder(t, buf), rem) == DecodeFamily(t, LegacyLE, buf, rem)
  {
    if |buf| > 0 && HeaderLen(t, LegacyLE, FlagsOf(LegacyLE, buf)) <= |buf| {
      var buf' := SwapFieldOrder(t, buf);
      SwappedFields(t, buf);
      ReadBEReverse(SidField(t, LegacyLE, buf));
      ReadBEReverse(OffField(t, LegacyLE, buf));
      if FlagsOf(LegacyLE, buf).hasLen {
        ReadBEReverse(LenField(t, LegacyLE, buf));
      }
      LegacySameValuesSameDecode(t, buf, buf', rem);
    }
  }

  /** Where SwapFieldOrder puts the fields: each one reversed in place. */
  lemma SwappedFields(t: Tables, buf: seq<byte>)
    requires ValidTables(t) && |buf| > 0
    requires HeaderLen(t, LegacyLE, FlagsOf(LegacyLE, buf)) <= |buf|
    ensures var buf' := SwapFieldOrder(t, buf);
      && |buf'| >= 1 && buf'[0] == buf[0]
      && FlagsOf(LegacyBE, buf') == FlagsOf(LegacyLE, buf)
      && HeaderLen(t, LegacyBE, FlagsOf(LegacyBE, buf')) <= |buf'|
      && SidField(t, LegacyBE, buf') == Reverse(SidField(t, LegacyLE, buf))
      && OffField(t, LegacyBE, buf') == Reverse(OffField(t, LegacyLE, buf))
      && (FlagsOf(LegacyLE, buf).hasLen ==>
            LenField(t, LegacyBE, buf') == Reverse(LenField(t, LegacyLE, buf)))
  {
    var fl := FlagsOf(LegacyLE, buf);
    var hdr := HeaderLen(t, LegacyLE, fl);
    var sid, off := SidField(t, LegacyLE, buf), OffField(t, LegacyLE, buf);
    var len := if fl.hasLen then LenField(t, LegacyLE, buf) else [];
    assert ParseFlags(LegacyBE, buf[0]) == fl;
    assert SidWidth(t, LegacyBE, fl.sidSel) == |sid| && OffWidth(t, LegacyBE, fl.offSel) == |off|;
    HeaderOfParts(t, LegacyBE, fl, buf[0], Reverse(sid), Reverse(off), Reverse(len), buf[hdr..]);
  }

  /** A little-endian and a big-endian legacy buffer with the same type byte
      whose fields read to the same values decode alike. */
  lemma LegacySameValuesSameDecode(t: Tables, a: seq<byte>, b: seq<byte>, rem: nat)
    requires ValidTables(t) && |a| >= 1 && |b| >= 1 && a[0] == b[0]
    requires HeaderLen(t, LegacyLE, FlagsOf(LegacyLE, a)) <= |a|
    requires HeaderLen(t, LegacyBE, FlagsOf(LegacyBE, b)) <= |b|
    requires ReadBE(SidField(t, LegacyBE, b)) == ReadLE(SidField(t, LegacyLE, a))
    requires ReadBE(OffField(t, LegacyBE, b)) == ReadLE(OffField(t, LegacyLE, a))
    requires FlagsOf(LegacyLE, a).hasLen ==>
      ReadBE(LenField(t, LegacyBE, b)) == ReadLE(LenField(t, LegacyLE, a))
    ensures DecodeFamily(t, LegacyBE, b, rem) == DecodeFamily(t, LegacyLE, a, rem)
  {
    assert ViewOf(t, LegacyLE, a) == ViewOf(t, LegacyBE, b);
    SameViewSameDecode(t, LegacyLE, LegacyBE, a, b, rem);
  }
}
