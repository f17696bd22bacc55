# lsquic STREAM-frame decoder, modelled in Dafny

This project models the versioned STREAM-frame decoder of the lsquic QUIC
library, `pf_parse_stream_frame`, for the three header layouts that the
library's unit test `test/unittests/test_streamparse.c` exercises:

- **LSQVER_037** — type byte `1fdoooss` (FIN, explicit-length bit, 3-bit
  offset-width selector, 2-bit stream-id-width selector); the stream id,
  offset and data length are little-endian.
- **LSQVER_039** — the same type byte; the fields are big-endian.
- **LSQVER_041** — type byte `11FSSOOD` (FIN, 2-bit stream-id selector,
  2-bit offset selector, explicit-length bit); the fields are big-endian.

The decoder's own C source is not part of this model. Its behaviour is
taken from the unit test: the bit-layout comments, the thirty test vectors
and the checks in `run_test`. The decoder works the same way in every
layout:

- it reads fixed-width integers in the layout's byte order;
- it reads a 2-byte explicit data length, or, when the length bit is clear,
  infers the length as the bytes left in the packet after the header;
- it rejects a frame whose header plus data would run past the packet;
- it rejects a frame whose data length is zero and whose FIN bit is clear.

The files are:

- `wire.dfy` (`Wire`): bytes, little- and big-endian fixed-width reads and
  writes, and their round trips.
- `layout.dfy` (`Layout`): versions, layout families, the version dispatch
  (`select_pf_by_ver`), type-byte flags and the selector-to-width tables.
- `decoder.dfy` (`StreamParse`): the stream frame (`stream_frame_t`) and the
  decoder as a pure function returning `Option`.
- `record.dfy` (`StreamRecord`): the caller-owned frame that the decoder
  fills in place, as a class, and `run_test`'s use of it.
- `encoder.dfy` (`StreamGen`): the header as the vectors build it, with both
  round trips against the decoder.
- `properties.dfy` (`StreamProps`): the decoder's promises for all inputs.
- `vectors.dfy` (`StreamParseTests`): every vector of the test, each proved
  to satisfy `run_test`'s checks.

The width tables map a selector to a field width. Only the entries the
vectors exercise are fixed:

- legacy `ss` 0 → 1 byte and 3 → 4 bytes;
- legacy `ooo` 1 → 2 bytes and 7 → 8 bytes;
- modern `SS` 0 → 1 byte and 3 → 4 bytes;
- modern `OO` 1 → 2 bytes and 3 → 8 bytes.

All other entries are parameters bounded by 8 bytes. Every result holds for
every table that agrees with the fixed entries (`Layout.ValidTables`).

The sanity rule is modelled as the vectors show it: "reject when the data
length is 0 and FIN is clear". The vector at test/unittests/test_streamparse.c:116-134 clears both FIN
and the length bit and is accepted with an inferred length. A reading
under which a missing length bit requires FIN would reject it.

## Model

| member | source | states |
|---|---|---|
| Wire.ReadWrite | test/unittests/test_streamparse.c:42-44 | writing a value that fits in w bytes and reading it back in the same byte order gives the value |
| Wire.WriteRead | test/unittests/test_streamparse.c:42-44 | reading a field and writing the value back in the same byte order and width gives the same bytes |
| Wire.ReadBEReverse | test/unittests/test_streamparse.c:247-249 | a big-endian read of the reversed bytes equals the little-endian read of the bytes (the legacy big-endian vectors are the little-endian ones with each field reversed) |
| Layout.SelectFamily | test/unittests/test_streamparse.c:38 | the version dispatch: only LSQVER_037 selects the little-endian legacy decoder and only LSQVER_041 the modern one |
| Layout.Order | test/unittests/test_streamparse.c:33-35 | exactly the little-endian legacy family reads its fields little-endian |
| Layout.ParseFlags | test/unittests/test_streamparse.c:39-41 | reads FIN (bit 6), the length bit (bit 5), the 3-bit offset selector (bits 4-2) and the 2-bit stream-id selector (bits 1-0) of 1fdoooss, and FIN (bit 5), SS (bits 4-3), OO (bits 2-1) and D (bit 0) of 11FSSOOD; every selector it yields has a table entry, and Layout.ParseTypeByte shows it inverts the type-byte construction |
| Layout.ParseTypeByte | test/unittests/test_streamparse.c:39-41 | extracting FIN, length bit and both selectors from the type byte built from them gives them back (1fdoooss and 11FSSOOD) |
| Layout.TypeByteOfParse | test/unittests/test_streamparse.c:449-451 | every type byte is the encoding of the flags read from it, up to the frame-type prefix bits |
| Layout.ValidTables | test/unittests/test_streamparse.c:39-46 | the selector-to-width tables pinned by the vectors: legacy ss 0 and 3 give 1 and 4 bytes, ooo 1 and 7 give 2 and 8; modern SS 0 and 3 give 1 and 4, OO 1 and 3 give 2 and 8; every other entry is at most 8 bytes; each table has one entry per selector and the legacy layouts share one table |
| Layout.HeaderLen | test/unittests/test_streamparse.c:46 | the header is at least the type byte and at most type byte, two 8-byte fields and the 2-byte length |
| StreamParse.DecodeFamily | test/unittests/test_streamparse.c:657-669 | on success the header fits, the return value is header bytes plus data size and is at most rem, the frame is not empty without FIN, and df_read_off is 0 and packet_in null |
| StreamParse.Decode | test/unittests/test_streamparse.c:657 | the decoder that the version selects: on success the header fits, the return value is header bytes plus data size and at most rem, the frame is not empty without FIN, and df_read_off is 0 and packet_in null |
| StreamParse.DecodeAccepts | test/unittests/test_streamparse.c:659-669 | a header whose fields read to given values, with data that fits and is not empty without FIN, decodes to exactly those values with header plus size consumed |
| StreamParse.DecodeRejects | test/unittests/test_streamparse.c:671-674 | a header that fits but whose data runs past the packet, or is empty without FIN, is rejected |
| StreamGen.DecodeEncode | test/unittests/test_streamparse.c:41-46 | decoding a header built from flags and field values that fit their widths, followed by any bytes, gives back exactly those values |
| StreamGen.EncodeDecode | test/unittests/test_streamparse.c:659-666 | every accepted header is the encoding of the fields the decoder reports, and those fields are encodable |
| StreamProps.TruncatedHeaderRejected | test/unittests/test_streamparse.c:661 | a header that does not fit in the remaining packet (or in the bytes held) is rejected; no vector truncates a header, so this is the model's design choice, the one consistent with an accepted frame's return value being header plus data within `rem` |
| StreamProps.InferredLength | test/unittests/test_streamparse.c:76-94 | with the length bit clear the frame is accepted exactly when FIN is set or data remains after the header, and then its size is rem minus the header and it consumes rem |
| StreamProps.ExplicitLengthBound | test/unittests/test_streamparse.c:198-236 | with the length bit set the frame is accepted exactly when header plus declared length fit in rem and it is not empty without FIN, and then its size is the declared length |
| StreamProps.EmptyWithoutFinRejected | test/unittests/test_streamparse.c:136-176 | an empty frame without FIN is rejected, whether its length is inferred or an explicit zero |
| StreamProps.EmptyWithFinAccepted | test/unittests/test_streamparse.c:178-196 | an explicit zero length with FIN is accepted with size 0, consuming just the header |
| StreamProps.TrailingBytesIgnored | test/unittests/test_streamparse.c:116-134 | replacing every byte after the header (payload or stray length bytes) leaves the result unchanged |
| StreamProps.SameViewSameDecode | test/unittests/test_streamparse.c:657-669 | two buffers whose type-byte flags and header-field values agree decode alike, under one family or under the two legacy families, which share a width table |
| StreamProps.LegacyByteOrderSymmetry | test/unittests/test_streamparse.c:241-339 | a little-endian legacy frame and the same frame with each field byte-reversed decode alike under the big-endian legacy decoder |
| StreamProps.LegacySameValuesSameDecode | test/unittests/test_streamparse.c:241-339 | legacy buffers with the same type byte whose fields read to the same values decode alike in either byte order |
| StreamRecord.FrameRecord.Filled | test/unittests/test_streamparse.c:654-655 | a frame filled with a byte, as by memset: every field holds a value derived from it |
| StreamRecord.FrameRecord.ParseStreamFrame | test/unittests/test_streamparse.c:657-669 | the return is negative exactly when the decoder rejects; otherwise it is the bytes consumed, at most rem, and the record holds the decoded frame with df_read_off 0 and packet_in null |
| StreamRecord.ParseIntoFilledRecord | test/unittests/test_streamparse.c:652-675 | after filling a record with 0x7A and decoding into it, failure is a negative return and success overwrites every field, leaving df_read_off 0 and packet_in null |
| StreamParseTests.Passes | test/unittests/test_streamparse.c:659-674 | run_test's verdict: a vector that should succeed decodes, consumes buf_sz plus the expected size, and yields the expected stream id, size, offset and FIN with packet_in null and df_read_off 0; one that should fail is rejected; a passing vector decodes exactly when it should succeed, and an accepted one fits in rem and is not empty without FIN |
| StreamParseTests.AcceptedVector | test/unittests/test_streamparse.c:659-669 | a vector built from a type byte and fields of the selected widths, whose expected frame is what the fields say, passes run_test's success checks |
| StreamParseTests.RejectedVector | test/unittests/test_streamparse.c:671-674 | a vector built the same way whose data is empty without FIN or runs past the packet passes run_test's failure check |
| StreamParseTests.LegacyLEAllBitsSet | test/unittests/test_streamparse.c:36-54 | little-endian (LSQVER_037): every selector at its widest, FIN and length bit set: decodes to stream id 0x210, offset 0x0807060504030201, size 0x1C4, FIN, 15-byte header, and run_test's checks hold |
| StreamParseTests.LegacyLEAllBitsSetNoFin | test/unittests/test_streamparse.c:56-74 | little-endian (LSQVER_037): the same frame with FIN clear decodes alike with FIN clear |
| StreamParseTests.LegacyLEImplicitLength | test/unittests/test_streamparse.c:76-94 | little-endian (LSQVER_037): length bit clear: the size is rem minus the header, and the bytes where a length field would be are not read |
| StreamParseTests.LegacyLEStreamIdLen1 | test/unittests/test_streamparse.c:96-114 | little-endian (LSQVER_037): the narrowest stream-id selector gives a 1-byte stream id |
| StreamParseTests.LegacyLEOnlyOffsetLen | test/unittests/test_streamparse.c:116-134 | little-endian (LSQVER_037): only the offset selector set: a 2-byte offset (0x255) and, with FIN clear, an inferred size of rem minus the 4-byte header, which is accepted |
| StreamParseTests.LegacyLESanityImplicitZero | test/unittests/test_streamparse.c:136-156 | little-endian (LSQVER_037): no length bit, no FIN and rem equal to the header: rejected |
| StreamParseTests.LegacyLESanityExplicitZero | test/unittests/test_streamparse.c:158-176 | little-endian (LSQVER_037): explicit zero length without FIN: rejected |
| StreamParseTests.LegacyLESanityExplicitZeroFin | test/unittests/test_streamparse.c:178-196 | little-endian (LSQVER_037): explicit zero length with FIN: accepted with size 0 |
| StreamParseTests.LegacyLEBoundsExact | test/unittests/test_streamparse.c:198-216 | little-endian (LSQVER_037): 6-byte header, rem 0x200, declared length 0x1FA: accepted |
| StreamParseTests.LegacyLEBoundsOver | test/unittests/test_streamparse.c:218-236 | little-endian (LSQVER_037): declared length 0x1FB, one byte past the packet: rejected |
| StreamParseTests.LegacyBEAllBitsSet | test/unittests/test_streamparse.c:241-259 | big-endian (LSQVER_039): every selector at its widest, FIN and length bit set: decodes to stream id 0x210, offset 0x0807060504030201, size 0x1C4, FIN, 15-byte header, and run_test's checks hold |
| StreamParseTests.LegacyBEAllBitsSetNoFin | test/unittests/test_streamparse.c:261-279 | big-endian (LSQVER_039): the same frame with FIN clear decodes alike with FIN clear |
| StreamParseTests.LegacyBEImplicitLength | test/unittests/test_streamparse.c:281-299 | big-endian (LSQVER_039): length bit clear: the size is rem minus the header, and the bytes where a length field would be are not read |
| StreamParseTests.LegacyBEStreamIdLen1 | test/unittests/test_streamparse.c:301-319 | big-endian (LSQVER_039): the narrowest stream-id selector gives a 1-byte stream id |
| StreamParseTests.LegacyBEOnlyOffsetLen | test/unittests/test_streamparse.c:321-339 | big-endian (LSQVER_039): only the offset selector set: a 2-byte offset (0x255) and, with FIN clear, an inferred size of rem minus the 4-byte header, which is accepted |
| StreamParseTests.LegacyBESanityImplicitZero | test/unittests/test_streamparse.c:341-361 | big-endian (LSQVER_039): no length bit, no FIN and rem equal to the header: rejected |
| StreamParseTests.LegacyBESanityExplicitZero | test/unittests/test_streamparse.c:363-381 | big-endian (LSQVER_039): explicit zero length without FIN: rejected |
| StreamParseTests.LegacyBESanityExplicitZeroFin | test/unittests/test_streamparse.c:383-401 | big-endian (LSQVER_039): explicit zero length with FIN: accepted with size 0 |
| StreamParseTests.LegacyBEBoundsExact | test/unittests/test_streamparse.c:403-421 | big-endian (LSQVER_039): 6-byte header, rem 0x200, declared length 0x1FA: accepted |
| StreamParseTests.LegacyBEBoundsOver | test/unittests/test_streamparse.c:423-441 | big-endian (LSQVER_039): declared length 0x1FB, one byte past the packet: rejected |
| StreamParseTests.ModernAllBitsSet | test/unittests/test_streamparse.c:446-464 | modern layout (LSQVER_041): every selector at its widest, FIN and length bit set: decodes to stream id 0x210, offset 0x0807060504030201, size 0x1C4, FIN, 15-byte header, and run_test's checks hold |
| StreamParseTests.ModernAllBitsSetNoFin | test/unittests/test_streamparse.c:466-484 | modern layout (LSQVER_041): the same frame with FIN clear decodes alike with FIN clear |
| StreamParseTests.ModernImplicitLength | test/unittests/test_streamparse.c:486-504 | modern layout (LSQVER_041): length bit clear: the size is rem minus the header, and the bytes where a length field would be are not read |
| StreamParseTests.ModernStreamIdLen1 | test/unittests/test_streamparse.c:506-524 | modern layout (LSQVER_041): the narrowest stream-id selector gives a 1-byte stream id |
| StreamParseTests.ModernOnlyOffsetLen | test/unittests/test_streamparse.c:526-544 | modern layout (LSQVER_041): only the offset selector set: a 2-byte offset (0x255) and, with FIN clear, an inferred size of rem minus the 4-byte header, which is accepted |
| StreamParseTests.ModernSanityImplicitZero | test/unittests/test_streamparse.c:546-566 | modern layout (LSQVER_041): no length bit, no FIN and rem equal to the header: rejected |
| StreamParseTests.ModernSanityExplicitZero | test/unittests/test_streamparse.c:568-586 | modern layout (LSQVER_041): explicit zero length without FIN: rejected |
| StreamParseTests.ModernSanityExplicitZeroFin | test/unittests/test_streamparse.c:588-606 | modern layout (LSQVER_041): explicit zero length with FIN: accepted with size 0 |
| StreamParseTests.ModernBoundsExact | test/unittests/test_streamparse.c:608-626 | modern layout (LSQVER_041): 6-byte header, rem 0x200, declared length 0x1FA: accepted |
| StreamParseTests.ModernBoundsOver | test/unittests/test_streamparse.c:628-646 | modern layout (LSQVER_041): declared length 0x1FB, one byte past the packet: rejected |

## Left out

- The decoder's C source and `select_pf_by_ver`'s function-pointer table are not part of this model. The decoder is modelled from the unit test, and the dispatch is a closed three-version datatype; the other `parse_funcs` entries (ACK, control frames) are not modelled.
- Width-table entries no vector exercises (legacy `ss` 1 and 2, `ooo` 0 and 2–6; modern `SS` 1 and 2, `OO` 0 and 2) are parameters bounded by 8 bytes, not fixed values.
- StreamParse.DecodeFamily: does not model C integer widths. The stream id, offset, size and return value are unbounded naturals. The width bound of 8 keeps the stream id and offset below 2^64, and the 2-byte field keeps an explicit length below 2^16. An inferred size, and so the return value, is bounded only by `rem`; the C decoder's `int` return and `df_size` field would overflow for a `rem` the model accepts.
- StreamParse.DecodeFamily: the frame-type prefix bits of the type byte (`1` and `11`) are not checked. Telling frame types apart is the caller's job, and no vector carries a wrong prefix.
- StreamParse.DecodeFamily: requires the header to fit in the bytes held as well as in `rem`. The C decoder sees only a pointer and `rem`. In the test the buffer is a zero-filled 0x100-byte array, so the two agree on every vector, and StreamProps.TrailingBytesIgnored shows that bytes after the header never matter.
- StreamProps.TruncatedHeaderRejected: no vector has a header longer than `rem`. Rejecting one is the model's choice of the only behaviour that never reads past the packet.
- StreamRecord.FrameRecord.ParseStreamFrame: the record's contents after a rejected frame are not specified, because `run_test` checks only the negative return.
- Payload bytes are not modelled: the decoder reports their extent and never copies them.
- The `packet_in` reference is modelled only as null or an opaque handle. `lsquic_packet_in.h` and the other included headers are not part of this model.
- The test harness (`memset`'s byte-level effect, `assert`, the `tests[]` array and the loop in `main`) is not modelled as code. Each vector is its own function, and each `run_test` verdict is its own lemma (`StreamParseTests.Passes` states the checks).
