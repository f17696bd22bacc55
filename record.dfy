/** The caller-owned stream_frame_t that pf_parse_stream_frame fills in
    place, and the unit test's use of it. */
module StreamRecord {
  import opened Wire
  import opened Layout
  import opened StreamParse

  class FrameRecord {
    var streamId: nat
    var dfOffset: nat
    var dfSize: nat
    var dfFin: bool
    var dfReadOff: nat
    var packetIn: PacketRef

    /** A record whose every field holds a value derived from a fill byte,
        as after memset(&frame, fill, sizeof(frame)): no field is zero or
        null when the fill byte is not zero. */
    constructor Filled(fill: byte)
      ensures streamId == fill as nat && dfOffset == fill as nat && dfSize == fill as nat
      ensures dfFin == (fill != 0) && dfReadOff == fill as nat && packetIn == Packet(fill as nat)
    {
      streamId, dfOffset, dfSize := fill as nat, fill as nat, fill as nat;
      dfFin, dfReadOff, packetIn := fill != 0, fill as nat, Packet(fill as nat);
    }

    /** The record's current contents as a value. */
    function Contents(): StreamFrame
      reads this
    {
      StreamFrame(streamId, dfOffset, dfSize, dfFin, dfReadOff, packetIn)
    }

    /** pf_parse_stream_frame: decode the frame at the start of buf, with rem
        bytes left in the packet, into this record.  Returns the number of
        bytes the frame occupies, or a negative value when it is rejected. */
    method ParseStreamFrame(t: Tables, v: Version, buf: seq<byte>, rem: nat) returns (len: int)
      requires ValidTables(t)
      modifies this
      ensures len < 0 <==> Decode(t, v, buf, rem).None?
      ensures len >= 0 ==> var p := Decode(t, v, buf, rem).value;
        len == p.consumed && len <= rem && Contents() == p.frame
      ensures len >= 0 ==> dfReadOff == 0 && packetIn == NullPacket
    {
      var r := Decode(t, v, buf, rem);
      match r {
        case None =>
          len := -1;
        case Some(p) =>
          streamId, dfOffset, dfSize := p.frame.streamId, p.frame.dfOffset, p.frame.dfSize;
          dfFin, dfReadOff, packetIn := p.frame.dfFin, p.frame.dfReadOff, p.frame.packetIn;
          len := p.consumed;
      }
    }
  }

  /** run_test's call: fill a fresh record with 0x7A, let the decoder
      overwrite it, and report the return value and the record's contents.
      On success none of the fill survives in df_read_off or packet_in. */
  method ParseIntoFilledRecord(t: Tables, v: Version, buf: seq<byte>, rem: nat)
    returns (len: int, frame: StreamFrame)
    requires ValidTables(t)
    ensures len < 0 <==> Decode(t, v, buf, rem).None?
    ensures len >= 0 ==>
      && len == Decode(t, v, buf, rem).value.consumed
      && frame == Decode(t, v, buf, rem).value.frame
      && frame.dfReadOff == 0 && frame.packetIn == NullPacket
  {
    var record := new FrameRecord.Filled(0x7A);
    len := record.ParseStreamFrame(t, v, buf, rem);
    frame := record.Contents();
  }
}
