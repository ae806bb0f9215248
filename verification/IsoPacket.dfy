/** HCI ISO Data packets (Bluetooth Core Specification, Vol 4, Part E, section 5.4.5) as written by
    le_audio_demo_util_source.c and parsed by le_audio_demo_util_sink.c. */
module IsoPacket {
  import opened Wrappers
  import opened ByteRing
  import opened Lc3Ring
  import opened Arith

  const MAX_LC3_FRAME_BYTES: nat := 155
  const PB_FLAG_COMPLETE: nat := 2

  type uint16 = x: int | 0 <= x < 0x1_0000

  /** little_endian_store_16, little_endian_read_16 and the 32 bit forms */
  function Le16(v: uint16): seq<byte> { [v % 0x100, v / 0x100] }

  function Le32(v: uint32): seq<byte> { Le16(v % 0x1_0000) + Le16(v / 0x1_0000) }

  function Read16(b: seq<byte>, i: nat): uint16
    requires i + 2 <= |b|
  {
    b[i] as int + 0x100 * (b[i + 1] as int)
  }

  function Read32(b: seq<byte>, i: nat): uint32
    requires i + 4 <= |b|
  {
    Read16(b, i) as int + 0x1_0000 * (Read16(b, i + 2) as int)
  }

  /** Packet layout: handle and flags, data load length, optional time stamp, sequence number, SDU length. */
  function Bytes(handle: nat, timestamp: Option<uint32>, sequenceNumber: uint16, sdu: seq<byte>): seq<byte>
    requires handle < 0x1000 && |sdu| < 0x4000
  {
    var ts := timestamp.Some?;
    Le16(handle + PB_FLAG_COMPLETE * 0x1000 + if ts then 0x4000 else 0)
    + Le16((if ts then 8 else 4) + |sdu|)
    + (if ts then Le32(timestamp.value) else [])
    + Le16(sequenceNumber) + Le16(|sdu|) + sdu
  }

  datatype Header = Header(conHandle: nat, pbFlag: nat, isoLoadLen: nat, sduSyncRefUs: uint32,
                           packetSequenceNumber: nat, isoSduLength: nat, packetStatusFlag: nat, offset: nat)

  /** The header fields and where the SDU starts. */
  function Parse(packet: seq<byte>): Header
    requires |packet| >= 8 && (Read16(packet, 0) / 0x4000 % 2 == 1 ==> |packet| >= 12)
  {
    var header := Read16(packet, 0);
    var tsFlag := header / 0x4000 % 2 == 1;
    var offset := if tsFlag then 8 else 4;
    var header2 := Read16(packet, offset + 2);
    Header(header % 0x1000, header / 0x1000 % 4, Read16(packet, 2),
           if tsFlag then Read32(packet, 4) else 0,
           Read16(packet, offset), header2 % 0x4000, header2 / 0x4000, offset + 4)
  }

  lemma {:induction false} Read16Of(b: seq<byte>, i: nat, v: uint16)
    requires i + 2 <= |b| && b[i..i + 2] == Le16(v)
    ensures Read16(b, i) == v
  {
    assert b[i] == b[i..i + 2][0] && b[i + 1] == b[i..i + 2][1];
  }

  lemma {:induction false} Read32Of(b: seq<byte>, i: nat, v: uint32)
    requires i + 4 <= |b| && b[i..i + 4] == Le32(v)
    ensures Read32(b, i) == v
  {
    var c := b[i..i + 4];
    assert b[i..i + 2] == c[..2] && b[i + 2..i + 4] == c[2..];
    Read16Of(b, i, v % 0x1_0000);
    Read16Of(b, i + 2, v / 0x1_0000);
  }

  /** Handle, boundary flag and time stamp flag share one word. */
  lemma {:induction false} TagFields(handle: nat, ts: bool)
    requires handle < 0x1000
    ensures var tag := handle + PB_FLAG_COMPLETE * 0x1000 + if ts then 0x4000 else 0;
            tag % 0x1000 == handle && tag / 0x1000 % 4 == PB_FLAG_COMPLETE && (tag / 0x4000 % 2 == 1 <==> ts)
  {
  }

  /** Where the fields of a packet are. */
  lemma {:induction false} Fields(handle: nat, timestamp: Option<uint32>, sequenceNumber: uint16, sdu: seq<byte>)
    requires handle < 0x1000 && |sdu| < 0x4000
    ensures var packet := Bytes(handle, timestamp, sequenceNumber, sdu);
            var o := if timestamp.Some? then 8 else 4;
            && |packet| == o + 4 + |sdu|
            && packet[0..2] == Le16(handle + PB_FLAG_COMPLETE * 0x1000 + if timestamp.Some? then 0x4000 else 0)
            && packet[2..4] == Le16(o + |sdu|)
            && (timestamp.Some? ==> packet[4..8] == Le32(timestamp.value))
            && packet[o..o + 2] == Le16(sequenceNumber) && packet[o + 2..o + 4] == Le16(|sdu|)
            && packet[o + 4..] == sdu
  {
  }

  /** The bytes of a packet. All fields are little-endian; the boundary flag of a complete SDU is 2. */
  lemma {:induction false} Layout(handle: nat, timestamp: Option<uint32>, sequenceNumber: uint16, sdu: seq<byte>)
    requires handle < 0x1000 && |sdu| < 0x4000
    ensures var packet := Bytes(handle, timestamp, sequenceNumber, sdu);
            var o := if timestamp.Some? then 8 else 4;
            && |packet| == o + 4 + |sdu| && packet[o + 4..] == sdu
            && packet[0] as int + 0x100 * packet[1] as int == handle + 0x2000 + (if timestamp.Some? then 0x4000 else 0)
            && packet[2] as int + 0x100 * packet[3] as int == o + |sdu|
            && (timestamp.Some? ==>
                  packet[4] as int + 0x100 * packet[5] as int + 0x1_0000 * packet[6] as int
                  + 0x100_0000 * packet[7] as int == timestamp.value)
            && packet[o] as int + 0x100 * packet[o + 1] as int == sequenceNumber
            && packet[o + 2] as int + 0x100 * packet[o + 3] as int == |sdu|
  {
    var packet, o := Bytes(handle, timestamp, sequenceNumber, sdu), if timestamp.Some? then 8 else 4;
    Fields(handle, timestamp, sequenceNumber, sdu);
    hide Bytes;
    assert packet[0] == packet[0..2][0] && packet[1] == packet[0..2][1];
    assert packet[2] == packet[2..4][0] && packet[3] == packet[2..4][1];
    assert packet[o] == packet[o..o + 2][0] && packet[o + 1] == packet[o..o + 2][1];
    assert packet[o + 2] == packet[o + 2..o + 4][0] && packet[o + 3] == packet[o + 2..o + 4][1];
    if timestamp.Some? {
      assert forall i :: 0 <= i < 4 ==> packet[4 + i] == packet[4..8][i];
    }
  }

  /** What the parser makes of any packet, in terms of its bytes: which bits are which field, and that the first word
      tells whether there is a time stamp. */
  lemma {:induction false} ParseReads(packet: seq<byte>, timed: bool, reserved: bool)
    requires |packet| >= (if timed then 12 else 8)
    requires (if timed then 0x40 else 0) + (if reserved then 0x80 else 0) <= packet[1] <
             (if timed then 0x40 else 0) + (if reserved then 0x80 else 0) + 0x40
    ensures (Read16(packet, 0) / 0x4000 % 2 == 1 <==> timed)
    ensures var h, o := Parse(packet), if timed then 8 else 4;
            && h.offset == o + 4 && h.conHandle < 0x1000 && h.pbFlag < 4
            && packet[0] as int + 0x100 * packet[1] as int ==
               h.conHandle + 0x1000 * h.pbFlag + (if timed then 0x4000 else 0) + (if reserved then 0x8000 else 0)
            && packet[2] as int + 0x100 * packet[3] as int == h.isoLoadLen
            && h.sduSyncRefUs == (if timed
                                  then packet[4] as int + 0x100 * packet[5] as int + 0x1_0000 * packet[6] as int
                                       + 0x100_0000 * packet[7] as int
                                  else 0)
            && packet[o] as int + 0x100 * packet[o + 1] as int == h.packetSequenceNumber
            && h.isoSduLength < 0x4000 && h.packetStatusFlag < 4
            && packet[o + 2] as int + 0x100 * packet[o + 3] as int == h.isoSduLength + 0x4000 * h.packetStatusFlag
  {
  }

  /** Every packet is parsed back to what went into it. */
  lemma {:induction false} ParseRoundTrip(handle: nat, timestamp: Option<uint32>, sequenceNumber: uint16,
                                          sdu: seq<byte>)
    requires handle < 0x1000 && |sdu| < 0x4000
    ensures var packet := Bytes(handle, timestamp, sequenceNumber, sdu);
            && |packet| >= (if timestamp.Some? then 12 else 8)
            && (Read16(packet, 0) / 0x4000 % 2 == 1 <==> timestamp.Some?)
            && var h := Parse(packet);
               && h == Header(handle, PB_FLAG_COMPLETE, (if timestamp.Some? then 8 else 4) + |sdu|,
                              if timestamp.Some? then timestamp.value else 0,
                              sequenceNumber, |sdu|, 0, if timestamp.Some? then 12 else 8)
               && h.offset + |sdu| == |packet| && packet[h.offset..] == sdu
  {
    hide Le16, Le32, Read16, Read32, Bytes;
    var packet, o := Bytes(handle, timestamp, sequenceNumber, sdu), if timestamp.Some? then 8 else 4;
    Fields(handle, timestamp, sequenceNumber, sdu);
    TagFields(handle, timestamp.Some?);
    Read16Of(packet, 0, handle + PB_FLAG_COMPLETE * 0x1000 + if timestamp.Some? then 0x4000 else 0);
    Read16Of(packet, 2, o + |sdu|);
    Read16Of(packet, o, sequenceNumber);
    Read16Of(packet, o + 2, |sdu|);
    if timestamp.Some? {
      Read32Of(packet, 4, timestamp.value);
    }
  }

  // ----- which channel an SDU belongs to

  /** effective_channel of the source and of the sink. */
  function SourceChannel(stream: nat, channelsPerStream: nat, i: nat): nat { stream * channelsPerStream + i }

  function SinkChannel(stream: nat, i: nat): nat { stream + i }

  /** The two formulas agree exactly on the first stream and on streams of one channel, which covers the
      supported configurations 1 x 1, 1 x 2 and 2 x 1. */
  lemma {:induction false} ChannelsAgree(stream: nat, channelsPerStream: nat)
    ensures (forall i :: 0 <= i < channelsPerStream ==>
               SourceChannel(stream, channelsPerStream, i) == SinkChannel(stream, i))
            <==> stream == 0 || channelsPerStream <= 1
  {
    if channelsPerStream >= 1 {
      assert SourceChannel(stream, channelsPerStream, 0) == SinkChannel(stream, 0)
             <==> stream * channelsPerStream == stream;
      if stream > 0 && channelsPerStream > 1 {
        assert stream * channelsPerStream >= stream * 2;
      }
    }
  }

  /** Encoded frame of one channel in the generator's payload buffer. */
  function FrameOf(payload: seq<byte>, channel: nat, octetsPerFrame: nat): (f: seq<byte>)
    requires octetsPerFrame <= MAX_LC3_FRAME_BYTES && (channel + 1) * MAX_LC3_FRAME_BYTES <= |payload|
    ensures |f| == octetsPerFrame
  {
    payload[channel * MAX_LC3_FRAME_BYTES..channel * MAX_LC3_FRAME_BYTES + octetsPerFrame]
  }

  /** The SDU of a stream: the frames of its first `n` channels. */
  function Sdu(payload: seq<byte>, first: nat, n: nat, octetsPerFrame: nat): (r: seq<byte>)
    requires octetsPerFrame <= MAX_LC3_FRAME_BYTES && (first + n) * MAX_LC3_FRAME_BYTES <= |payload|
    ensures |r| == n * octetsPerFrame
  {
    if n == 0 then [] else Sdu(payload, first, n - 1, octetsPerFrame) + FrameOf(payload, first + n - 1, octetsPerFrame)
  }

  /** Byte b of the i-th frame in an SDU is byte b of the encoder's buffer for that channel, which has 155 bytes. */
  lemma {:induction false} SduBytes(payload: seq<byte>, first: nat, n: nat, octetsPerFrame: nat, i: nat, b: nat)
    requires octetsPerFrame <= MAX_LC3_FRAME_BYTES && (first + n) * MAX_LC3_FRAME_BYTES <= |payload|
    requires i < n && b < octetsPerFrame
    ensures Product(i, octetsPerFrame) + b < |Sdu(payload, first, n, octetsPerFrame)|
    ensures 155 * (first + i) + b < |payload|
    ensures Sdu(payload, first, n, octetsPerFrame)[Product(i, octetsPerFrame) + b] == payload[155 * (first + i) + b]
  {
    var front, frame := Sdu(payload, first, n - 1, octetsPerFrame), FrameOf(payload, first + n - 1, octetsPerFrame);
    assert Sdu(payload, first, n, octetsPerFrame) == front + frame && |front| == Product(n - 1, octetsPerFrame);
    FrameByte(payload, first + n - 1, octetsPerFrame, b);
    hide Sdu, FrameOf, Product;
    if i < n - 1 {
      ProductIncreases(i, n - 1, octetsPerFrame);
      SduBytes(payload, first, n - 1, octetsPerFrame, i, b);
    }
  }

  lemma {:induction false} FrameByte(payload: seq<byte>, channel: nat, octetsPerFrame: nat, b: nat)
    requires octetsPerFrame <= MAX_LC3_FRAME_BYTES && (channel + 1) * MAX_LC3_FRAME_BYTES <= |payload|
    requires b < octetsPerFrame
    ensures 155 * channel + b < |payload| && FrameOf(payload, channel, octetsPerFrame)[b] == payload[155 * channel + b]
  {
  }

  /** Cutting an SDU into frames gives back every channel's frame. */
  lemma {:induction false} SduPart(payload: seq<byte>, first: nat, n: nat, octetsPerFrame: nat, i: nat)
    requires octetsPerFrame <= MAX_LC3_FRAME_BYTES && (first + n) * MAX_LC3_FRAME_BYTES <= |payload| && i < n
    ensures (first + i + 1) * MAX_LC3_FRAME_BYTES <= |payload|
    ensures Part(Sdu(payload, first, n, octetsPerFrame), i, octetsPerFrame)
            == FrameOf(payload, first + i, octetsPerFrame)
  {
    hide FrameOf, Part;
    var front := Sdu(payload, first, n - 1, octetsPerFrame);
    var frame := FrameOf(payload, first + n - 1, octetsPerFrame);
    if i < n - 1 {
      SduPart(payload, first, n - 1, octetsPerFrame, i);
      MulMonotone(i + 1, n - 1, octetsPerFrame);
      PartOfFront(front, frame, i, octetsPerFrame);
    } else {
      PartOfBack(front, frame, i, octetsPerFrame);
    }
  }

  /** What the source sends for a stream is what the sink hands to its channels: same handle, same sequence
      number, and for every channel of the stream the encoder's frame, not marked as lost. */
  lemma {:induction false} SendReceive(payload: seq<byte>, stream: nat, channelsPerStream: nat, octetsPerFrame: nat,
                    handle: nat, sequenceNumber: uint16, i: nat)
    requires (stream == 0 && channelsPerStream <= 2) || (stream <= 1 && channelsPerStream == 1)
    requires i < channelsPerStream && 0 < octetsPerFrame <= MAX_LC3_FRAME_BYTES
    requires |payload| == 2 * MAX_LC3_FRAME_BYTES && handle < 0x1000
    ensures var sdu := Sdu(payload, SourceChannel(stream, channelsPerStream, 0), channelsPerStream, octetsPerFrame);
            var packet := Bytes(handle, None, sequenceNumber, sdu);
            && |sdu| < 0x4000 && |packet| >= 8 && Read16(packet, 0) / 0x4000 % 2 == 0
            && var h := Parse(packet);
               && h.conHandle == handle && h.packetSequenceNumber == sequenceNumber
               && h.isoSduLength == octetsPerFrame * channelsPerStream
               && Part(packet[h.offset..], i, octetsPerFrame)
                  == FrameOf(payload, SinkChannel(stream, i), octetsPerFrame)
  {
    var first := SourceChannel(stream, channelsPerStream, 0);
    assert first == stream && (first + channelsPerStream) * MAX_LC3_FRAME_BYTES <= |payload|;
    hide Bytes, Sdu, Part, FrameOf, Parse, Read16;
    var sdu := Sdu(payload, first, channelsPerStream, octetsPerFrame);
    ParseRoundTrip(handle, None, sequenceNumber, sdu);
    SduPart(payload, first, channelsPerStream, octetsPerFrame, i);
  }
}
