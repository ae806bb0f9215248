/** Sender and receiver of ISO packets on their own buffers: le_audio_demo_util_source_send writes the outgoing
    packet buffer in place, le_audio_demo_util_sink_receive fills the per-channel rings. */
module IsoTransfer {
  import opened Wrappers
  import opened ByteRing
  import opened Lc3Ring
  import opened IsoPacket
  import opened Arith

  const MAX_CHANNELS: nat := 2

  /** memcpy(&buffer[offset], data, |data|) */
  method CopyAt(buffer: array<byte>, offset: nat, data: seq<byte>)
    requires offset + |data| <= buffer.Length
    modifies buffer
    ensures buffer[..offset + |data|] == old(buffer[..offset]) + data
  {
    forall i | 0 <= i < |data| {
      buffer[offset + i] := data[i];
    }
    assert buffer[..offset] == old(buffer[..offset]);
    assert buffer[offset..offset + |data|] == data;
    assert buffer[..offset + |data|] == buffer[..offset] + buffer[offset..offset + |data|];
  }

  /** little_endian_store_16 */
  method Store16(buffer: array<byte>, position: nat, value: uint16)
    requires position + 2 <= buffer.Length
    modifies buffer
    ensures buffer[..position + 2] == old(buffer[..position]) + Le16(value)
  {
    CopyAt(buffer, position, Le16(value));
  }

  /** The fixed part of a packet without time stamp. */
  function HeaderBytes(handle: nat, sequenceNumber: uint16, sduLength: nat): (h: seq<byte>)
    requires handle < 0x1000 && sduLength < 0x4000
    ensures |h| == 8
  {
    Le16(handle + PB_FLAG_COMPLETE * 0x1000) + Le16(4 + sduLength) + Le16(sequenceNumber) + Le16(sduLength)
  }

  lemma {:induction false} BytesOfHeader(handle: nat, sequenceNumber: uint16, sdu: seq<byte>)
    requires handle < 0x1000 && |sdu| < 0x4000
    ensures Bytes(handle, None, sequenceNumber, sdu) == HeaderBytes(handle, sequenceNumber, |sdu|) + sdu
  {
    hide Le16;
  }

  /** A packet is as long as its header says. */
  predicate Complete(packet: seq<byte>) {
    && |packet| >= 8 && (Read16(packet, 0) / 0x4000 % 2 == 1 ==> |packet| >= 12)
    && Parse(packet).offset + Parse(packet).isoSduLength <= |packet|
  }

  class Generator {
    const isoPayload: array<byte>
    const packetSequenceNumbers: array<uint16>
    var octetsPerFrame: nat
    var numChannelsPerStream: nat

    /** A stream of this configuration exists, in one of the supported layouts. */
    ghost predicate Sends(stream: nat)
      reads this
    {
      && isoPayload.Length == MAX_CHANNELS * MAX_LC3_FRAME_BYTES && packetSequenceNumbers.Length == MAX_CHANNELS
      && 0 < octetsPerFrame <= MAX_LC3_FRAME_BYTES
      && ((stream == 0 && 1 <= numChannelsPerStream <= 2) || (stream == 1 && numChannelsPerStream == 1))
    }

    ghost function StreamSdu(stream: nat): (sdu: seq<byte>)
      requires Sends(stream)
      reads this, isoPayload
      ensures |sdu| == numChannelsPerStream * octetsPerFrame < 0x4000
    {
      Sdu(isoPayload[..], SourceChannel(stream, numChannelsPerStream, 0), numChannelsPerStream, octetsPerFrame)
    }

    /** Behind the header are the first bytes of the encoder's buffers, 155 bytes each, for the stream's channels. */
    ghost predicate CarriesByte(buffer: array<byte>, stream: nat, i: nat, b: nat)
      reads this, isoPayload, buffer
    {
      var at, from := 8 + Product(i, octetsPerFrame) + b, 155 * (Product(stream, numChannelsPerStream) + i) + b;
      at < buffer.Length && from < isoPayload.Length && buffer[at] == isoPayload[from]
    }

    ghost predicate Carries(buffer: array<byte>, stream: nat)
      reads this, isoPayload, buffer
    {
      forall i, b :: 0 <= i < numChannelsPerStream && 0 <= b < octetsPerFrame ==> CarriesByte(buffer, stream, i, b)
    }

    lemma {:induction false} CarriesSdu(buffer: array<byte>, stream: nat, header: seq<byte>)
      requires Sends(stream) && |header| == 8 && buffer.Length >= 8 + numChannelsPerStream * octetsPerFrame
      requires buffer[..8 + numChannelsPerStream * octetsPerFrame] == header + StreamSdu(stream)
      ensures Carries(buffer, stream)
    {
      var size, sdu := 8 + numChannelsPerStream * octetsPerFrame, StreamSdu(stream);
      var payload, first := isoPayload[..], SourceChannel(stream, numChannelsPerStream, 0);
      assert first == Product(stream, numChannelsPerStream);
      forall i, b | 0 <= i < numChannelsPerStream && 0 <= b < octetsPerFrame
        ensures CarriesByte(buffer, stream, i, b)
      {
        SduBytes(payload, first, numChannelsPerStream, octetsPerFrame, i, b);
        hide Sdu, Product;
        var at := Product(i, octetsPerFrame) + b;
        assert buffer[..size][8 + at] == sdu[at];
      }
    }

    method SendHeader(handle: nat, sequenceNumber: uint16, sduLength: nat, buffer: array<byte>)
      requires handle < 0x1000 && sduLength < 0x4000 && buffer.Length >= 8
      modifies buffer
      ensures buffer[..8] == HeaderBytes(handle, sequenceNumber, sduLength)
    {
      hide Le16;
      Store16(buffer, 0, handle + PB_FLAG_COMPLETE * 0x1000);
      Store16(buffer, 2, 0 + 4 + sduLength);
      Store16(buffer, 4, sequenceNumber);
      Store16(buffer, 6, sduLength);
    }

    /** One frame of the stream, behind what is already written. */
    method SendFrame(stream: nat, i: nat, buffer: array<byte>, offset: nat, ghost header: seq<byte>)
      requires Sends(stream) && buffer != isoPayload && i < numChannelsPerStream
      requires offset + octetsPerFrame <= buffer.Length
      requires buffer[..offset] ==
               header + Sdu(isoPayload[..], SourceChannel(stream, numChannelsPerStream, 0), i, octetsPerFrame)
      modifies buffer
      ensures buffer[..offset + octetsPerFrame] ==
              header + Sdu(isoPayload[..], SourceChannel(stream, numChannelsPerStream, 0), i + 1, octetsPerFrame)
    {
      var effectiveChannel := stream * numChannelsPerStream + i;
      var start := effectiveChannel * MAX_LC3_FRAME_BYTES;
      var frame := isoPayload[start..start + octetsPerFrame];
      ghost var payload, first := isoPayload[..], SourceChannel(stream, numChannelsPerStream, 0);
      assert frame == FrameOf(payload, first + i, octetsPerFrame);
      ghost var before := Sdu(payload, first, i, octetsPerFrame);
      assert Sdu(payload, first, i + 1, octetsPerFrame) == before + frame;
      hide *;
      CopyAt(buffer, offset, frame);
      assert (header + before) + frame == header + (before + frame);
      assert isoPayload[..] == payload;
    }

    /** The payload loop: the frames of the stream's channels behind the header. */
    method SendPayload(stream: nat, buffer: array<byte>, ghost header: seq<byte>) returns (offset: nat)
      requires Sends(stream) && buffer != isoPayload && |header| == 8
      requires buffer.Length >= 8 + numChannelsPerStream * octetsPerFrame && buffer[..8] == header
      modifies buffer
      ensures offset == 8 + numChannelsPerStream * octetsPerFrame
      ensures buffer[..offset] == header + StreamSdu(stream)
    {
      ghost var payload, first := isoPayload[..], SourceChannel(stream, numChannelsPerStream, 0);
      assert header + Sdu(payload, first, 0, octetsPerFrame) == header;
      hide Sdu;
      offset := 8;
      var i := 0;
      while i < numChannelsPerStream
        invariant i <= numChannelsPerStream && offset == 8 + i * octetsPerFrame
        invariant isoPayload[..] == payload
        invariant buffer[..offset] == header + Sdu(payload, first, i, octetsPerFrame)
      {
        MulMonotone(i + 1, numChannelsPerStream, octetsPerFrame);
        SendFrame(stream, i, buffer, offset, header);
        offset := offset + octetsPerFrame;
        i := i + 1;
      }
    }

    /** le_audio_demo_util_source_send: a complete SDU without time stamp. */
    method Send(stream: nat, handle: nat, buffer: array<byte>) returns (size: nat)
      requires Sends(stream) && handle < 0x1000 && buffer != isoPayload
      requires buffer.Length >= 8 + numChannelsPerStream * octetsPerFrame
      modifies buffer, packetSequenceNumbers
      ensures size <= buffer.Length
      ensures buffer[..size] == Bytes(handle, None, old(packetSequenceNumbers[stream]), StreamSdu(stream))
      ensures size == 8 + numChannelsPerStream * octetsPerFrame
      ensures buffer[0] as int + 0x100 * buffer[1] as int == handle + 0x2000
      ensures buffer[2] as int + 0x100 * buffer[3] as int == size - 4
      ensures buffer[4] as int + 0x100 * buffer[5] as int == old(packetSequenceNumbers[stream])
      ensures buffer[6] as int + 0x100 * buffer[7] as int == size - 8
      ensures Carries(buffer, stream)
      ensures packetSequenceNumbers[stream] == (old(packetSequenceNumbers[stream]) as int + 1) % 0x1_0000
      ensures forall k :: 0 <= k < MAX_CHANNELS && k != stream ==>
                packetSequenceNumbers[k] == old(packetSequenceNumbers[k])
    {
      hide StreamSdu, Bytes, HeaderBytes, Sdu;
      var sduLength := numChannelsPerStream * octetsPerFrame;
      SendHeader(handle, packetSequenceNumbers[stream], sduLength, buffer);
      size := SendPayload(stream, buffer, HeaderBytes(handle, packetSequenceNumbers[stream], sduLength));
      BytesOfHeader(handle, packetSequenceNumbers[stream], StreamSdu(stream));
      Layout(handle, None, packetSequenceNumbers[stream], StreamSdu(stream));
      assert forall i :: 0 <= i < 8 ==> buffer[i] == buffer[..size][i];
      CarriesSdu(buffer, stream, HeaderBytes(handle, packetSequenceNumbers[stream], sduLength));
      hide Carries;
      packetSequenceNumbers[stream] := (packetSequenceNumbers[stream] as int + 1) % 0x1_0000;
    }
  }

  /** One more packet, with these times. */
  ghost predicate Follows(after: seq<Packet>, before: seq<Packet>, due: Due) {
    && |after| == |before| + 1 && before <= after
    && after[|before|].startTimeUs == due.startTimeUs && after[|before|].durationUs == due.durationUs
  }

  lemma {:induction false} ArrivedLast(d: Lc3Data, before: seq<Packet>, due: Due, bfi: bool, data: seq<byte>)
    requires Arrived(d, before, due, bfi, data)
    ensures Follows(d.stored, before, due)
  {
  }

  class Sink {
    const channels: seq<Lc3Data>
    const octetsPerFrame: nat
    const numChannelsPerStream: nat
    const tenMs: bool                  // frame duration: 10 ms, or 7.5 ms
    var presentationDelayUs: uint32
    var timeOffsetUs: int              // Bluetooth time minus local time, from the latest sync event

    /** Reference time, presentation delay and clock offset give the start, in 32-bit arithmetic. */
    function DueAt(sduSyncRefUs: uint32): Due
      reads this
    {
      Due((sduSyncRefUs + presentationDelayUs - timeOffsetUs) % 0x1_0000_0000, if tenMs then 10000 else 7500)
    }

    /** le_audio_demo_util_sink_process_sync_event: both clocks at the same moment. */
    method ProcessSyncEvent(bluetoothTimeUs: uint32, localTimeUs: uint32)
      modifies this`timeOffsetUs
      ensures Coincide(bluetoothTimeUs, localTimeUs)
    {
      timeOffsetUs := TimeDelta(bluetoothTimeUs, localTimeUs);
    }

    /** The Bluetooth clock shows the one when the local clock shows the other. */
    predicate Coincide(bluetoothTimeUs: uint32, localTimeUs: uint32)
      reads this
    {
      bluetoothTimeUs == U32(localTimeUs + timeOffsetUs)
    }

    /** Clocks at the same rate coincide later too. */
    lemma {:induction false} StillCoincide(bluetoothTimeUs: uint32, localTimeUs: uint32, elapsedUs: nat)
      requires Coincide(bluetoothTimeUs, localTimeUs)
      ensures Coincide(U32(bluetoothTimeUs + elapsedUs), U32(localTimeUs + elapsedUs))
    {
      WordPlus(localTimeUs + timeOffsetUs, elapsedUs);
      WordPlus(localTimeUs + elapsedUs, timeOffsetUs);
    }

    /** An SDU is due one presentation delay after its reference time, on the local clock, for one frame. */
    lemma {:induction false} DueOnLocalClock(sduSyncRefUs: uint32, localTimeUs: uint32)
      requires Coincide(sduSyncRefUs, localTimeUs)
      ensures DueAt(sduSyncRefUs) == Due(U32(localTimeUs + presentationDelayUs), if tenMs then 10_000 else 7_500)
    {
      WordPlus(localTimeUs + timeOffsetUs, presentationDelayUs - timeOffsetUs);
    }

    lemma {:induction false} DueOneFrameLater(sduSyncRefUs: uint32, localTimeUs: uint32)
      requires Coincide(sduSyncRefUs, localTimeUs)
      ensures var frameUs := if tenMs then 10_000 else 7_500;
              var due := DueAt(sduSyncRefUs);
              && due == Due(U32(localTimeUs + presentationDelayUs), frameUs)
              && DueAt(U32(sduSyncRefUs + frameUs)) == Due(U32(due.startTimeUs + frameUs), frameUs)
    {
      var frameUs := if tenMs then 10_000 else 7_500;
      DueOnLocalClock(sduSyncRefUs, localTimeUs);
      StillCoincide(sduSyncRefUs, localTimeUs, frameUs);
      DueOnLocalClock(U32(sduSyncRefUs + frameUs), U32(localTimeUs + frameUs));
      WordPlus(localTimeUs + presentationDelayUs, frameUs);
      WordPlus(localTimeUs + frameUs, presentationDelayUs);
    }

    /** A stream of the configuration exists; the rings are distinct objects. */
    ghost predicate Receives(stream: nat) {
      && stream + numChannelsPerStream <= |channels| <= MAX_CHANNELS
      && (forall a, b :: 0 <= a < b < |channels| ==>
            channels[a] != channels[b] && channels[a].packets != channels[b].packets)
    }

    /** store_packet: channel `stream + i` takes the i-th frame of the SDU, or a lost frame if the length is not
        the configured one. */
    method StorePacket(stream: nat, sduSyncRefUs: uint32, data: seq<byte>)
      requires Receives(stream)
      requires forall c :: 0 <= c < |channels| ==> channels[c].Valid()
      modifies channels, set c | c in channels :: c.packets
      ensures forall c :: 0 <= c < |channels| ==> channels[c].Valid()
      ensures forall c :: stream <= c < stream + numChannelsPerStream ==>
                Arrived(channels[c], old(channels[c].stored), DueAt(sduSyncRefUs),
                        |data| != octetsPerFrame * numChannelsPerStream, Part(data, c - stream, octetsPerFrame))
      ensures forall c :: 0 <= c < |channels| && !(stream <= c < stream + numChannelsPerStream) ==>
                channels[c].stored == old(channels[c].stored)
    {
      hide Lc3Data.Valid, Part, Arrived, DueAt;
      StoreFrames(stream, DueAt(sduSyncRefUs), |data| != octetsPerFrame * numChannelsPerStream, data);
    }

    /** The packet with this number starts one presentation delay after the local time, and lasts one frame. */
    ghost predicate StartsAt(d: Lc3Data, number: nat, localTimeUs: uint32)
      reads this, d
    {
      && number < |d.stored|
      && d.stored[number].startTimeUs == U32(localTimeUs + presentationDelayUs)
      && d.stored[number].durationUs == if tenMs then 10_000 else 7_500
    }

    /** Packet `number` starts on time, and the one behind it when it ends. */
    ghost predicate TwoOnTime(d: Lc3Data, number: nat, localTimeUs: uint32)
      reads this, d
    {
      && StartsAt(d, number, localTimeUs) && |d.stored| == number + 2
      && d.stored[number + 1].startTimeUs == U32(d.stored[number].startTimeUs + d.stored[number].durationUs)
    }

    /** Two SDUs one frame apart: both are due on time, and the second one starts when the first one ends. */
    method StoreTwo(stream: nat, sduSyncRefUs: uint32, first: seq<byte>, second: seq<byte>, ghost localTimeUs: uint32)
      requires Receives(stream) && Coincide(sduSyncRefUs, localTimeUs)
      requires forall c :: 0 <= c < |channels| ==> channels[c].Valid()
      modifies channels, set c | c in channels :: c.packets
      ensures forall c :: stream <= c < stream + numChannelsPerStream ==>
                TwoOnTime(channels[c], |old(channels[c].stored)|, localTimeUs)
    {
      DueOneFrameLater(sduSyncRefUs, localTimeUs);
      hide Lc3Data.Valid, Part, DueAt, Coincide, U32, Arrived, StartsAt;
      var next := U32(sduSyncRefUs + if tenMs then 10000 else 7500);
      StorePacket(stream, sduSyncRefUs, first);
      ghost var between := seq(|channels|, c requires 0 <= c < |channels| reads channels => channels[c].stored);
      forall c | stream <= c < stream + numChannelsPerStream
        ensures Follows(between[c], old(channels[c].stored), DueAt(sduSyncRefUs))
      {
        ArrivedLast(channels[c], old(channels[c].stored), DueAt(sduSyncRefUs),
                    |first| != octetsPerFrame * numChannelsPerStream, Part(first, c - stream, octetsPerFrame));
      }
      hide Follows;
      StorePacket(stream, next, second);
      forall c | stream <= c < stream + numChannelsPerStream
        ensures TwoOnTime(channels[c], |old(channels[c].stored)|, localTimeUs)
      {
        ArrivedTwice(channels[c], old(channels[c].stored), between[c], sduSyncRefUs, next, localTimeUs,
                     |second| != octetsPerFrame * numChannelsPerStream, Part(second, c - stream, octetsPerFrame));
      }
    }

    lemma {:induction false} ArrivedTwice(d: Lc3Data, before: seq<Packet>, between: seq<Packet>, sduSyncRefUs: uint32,
                                          next: uint32, localTimeUs: uint32, bfi: bool, data: seq<byte>)
      requires Follows(between, before, DueAt(sduSyncRefUs)) && Arrived(d, between, DueAt(next), bfi, data)
      requires Coincide(sduSyncRefUs, localTimeUs) && next == U32(sduSyncRefUs + if tenMs then 10000 else 7500)
      ensures TwoOnTime(d, |before|, localTimeUs)
    {
      DueOneFrameLater(sduSyncRefUs, localTimeUs);
      hide DueAt, U32;
    }

    /** The channel loop. */
    method StoreFrames(stream: nat, due: Due, bfi: bool, data: seq<byte>)
      requires Receives(stream)
      requires forall c :: 0 <= c < |channels| ==> channels[c].Valid()
      modifies channels, set c | c in channels :: c.packets
      ensures forall c :: 0 <= c < |channels| ==>
                && channels[c].Valid()
                && if stream <= c < stream + numChannelsPerStream
                   then Arrived(channels[c], old(channels[c].stored), due, bfi, Part(data, c - stream, octetsPerFrame))
                   else channels[c].stored == old(channels[c].stored)
    {
      hide Lc3Data.Valid, Part, Arrived;
      for i := 0 to numChannelsPerStream
        invariant forall c :: 0 <= c < |channels| ==>
                    && channels[c].Valid()
                    && if stream <= c < stream + i
                       then Arrived(channels[c], old(channels[c].stored), due, bfi,
                                    Part(data, c - stream, octetsPerFrame))
                       else channels[c].stored == old(channels[c].stored)
      {
        StoreChannel(channels[stream + i], due, Part(data, i, octetsPerFrame), bfi);
      }
    }

    method StoreChannel(d: Lc3Data, due: Due, data: seq<byte>, bfi: bool)
      requires d.Valid()
      modifies d, d.packets
      ensures d.Valid() && Arrived(d, old(d.stored), due, bfi, data)
    {
      hide Lc3Data.Valid, Lc3Data.Queue, Lc3Data.Full, Enqueue;
      var p := d.StorePacket(due.startTimeUs, due.durationUs, data, bfi);
    }

    /** le_audio_demo_util_sink_receive. The size of the packet is not looked at: a packet that is shorter than its
        header says would be read past its end, which is reported as not complete. */
    method Receive(stream: nat, packet: seq<byte>) returns (complete: bool)
      requires Receives(stream) && forall c :: 0 <= c < |channels| ==> channels[c].Valid()
      modifies channels, set c | c in channels :: c.packets
      ensures complete <==> Complete(packet)
      ensures forall c :: 0 <= c < |channels| ==> channels[c].Valid()
      ensures complete ==>
                var h := Parse(packet);
                forall c :: stream <= c < stream + numChannelsPerStream ==>
                  Arrived(channels[c], old(channels[c].stored), DueAt(h.sduSyncRefUs),
                          h.isoSduLength != octetsPerFrame * numChannelsPerStream,
                          Part(packet[h.offset..h.offset + h.isoSduLength], c - stream, octetsPerFrame))
      ensures forall c :: 0 <= c < |channels| && !(complete && stream <= c < stream + numChannelsPerStream) ==>
                channels[c].stored == old(channels[c].stored)
    {
      hide Lc3Data.Valid, Part, Arrived, Parse, Read16;
      complete := Complete(packet);
      if complete {
        var h := Parse(packet);
        StorePacket(stream, h.sduSyncRefUs, packet[h.offset..h.offset + h.isoSduLength]);
      }
    }
  }

  /** Source to sink: after one packet every channel of the stream holds the generator's current frame of that
      channel, not marked as lost, and the other channel is untouched. */
  method Transfer(g: Generator, sink: Sink, stream: nat, handle: nat, buffer: array<byte>)
    requires g.Sends(stream) && handle < 0x1000 && buffer != g.isoPayload
    requires buffer.Length >= 8 + g.numChannelsPerStream * g.octetsPerFrame
    requires sink.Receives(stream) && sink.octetsPerFrame == g.octetsPerFrame
    requires sink.numChannelsPerStream == g.numChannelsPerStream
    requires forall c :: 0 <= c < |sink.channels| ==> sink.channels[c].Valid()
    modifies buffer, g.packetSequenceNumbers, sink.channels, set c | c in sink.channels :: c.packets
    ensures forall c :: 0 <= c < |sink.channels| ==> sink.channels[c].Valid()
    ensures forall c :: stream <= c < stream + g.numChannelsPerStream ==>
              Arrived(sink.channels[c], old(sink.channels[c].stored), sink.DueAt(0), false,
                      FrameOf(g.isoPayload[..], c, g.octetsPerFrame))
    ensures forall c :: 0 <= c < |sink.channels| && !(stream <= c < stream + g.numChannelsPerStream) ==>
              sink.channels[c].stored == old(sink.channels[c].stored)
  {
    hide Lc3Data.Valid, Part, Arrived, Bytes, Sdu, FrameOf, Parse, Read16;
    ghost var payload, number, n, o := g.isoPayload[..], g.packetSequenceNumbers[stream],
                                       g.numChannelsPerStream, g.octetsPerFrame;
    var size := g.Send(stream, handle, buffer);
    var packet := buffer[..size];
    assert packet == Bytes(handle, None, number, Sdu(payload, SourceChannel(stream, n, 0), n, o));
    ParseRoundTrip(handle, None, number, Sdu(payload, SourceChannel(stream, n, 0), n, o));
    ghost var h := Parse(packet);
    assert Complete(packet);
    assert packet[h.offset..h.offset + h.isoSduLength] == packet[h.offset..];
    forall c | stream <= c < stream + n
      ensures Part(packet[h.offset..h.offset + h.isoSduLength], c - stream, o) == FrameOf(payload, c, o)
    {
      SendReceive(payload, stream, n, o, handle, number, c - stream);
    }
    assert forall c :: 0 <= c < |sink.channels| ==> sink.channels[c].Valid();
    hide *;
    var complete := sink.Receive(stream, packet);
    assert g.isoPayload[..] == payload;
  }
}
