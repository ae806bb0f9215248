/** The playback callback of le_audio_demo_util_sink.c without external trigger: it starts once enough frames
    are queued, decodes on demand, and stops on underrun. All channels of a stream are stored together. */
module GenericPlayback {
  import opened Arith
  import opened ByteRing
  import opened Lc3Ring
  import opened Resampler

  const NO_TIME: Due := Due(0, 0)  // packets carry no times in this build
  const PLAYBACK_START_MS: nat := 30

  /** playback_start_threshold_frames for a frame duration of 10 ms or 7.5 ms. */
  function StartThresholdFrames(tenMs: bool): (frames: nat)
    ensures frames * (if tenMs then 10_000 else 7_500) == 30_000
  {
    if tenMs then PLAYBACK_START_MS * 1000 / 10000 else PLAYBACK_START_MS * 1000 / 7500
  }

  /** Decoder and resampler of one channel: the samples produced by the k-th frame that is decoded. */
  type Codec = (nat, Packet) -> seq<int>

  const MAX_SAMPLES_PER_FRAME: nat := 480
  const MAX_PCM_BUFFER_SAMPLES: nat := 529

  /** With sample rate compensation there is a resampler for each channel. A factor is computed but never set, so the
      resamplers stay at the neutral step of their initialisation. Without it the decoder's samples are played as they
      are. */
  datatype Build = Build(samplesPerFrame: nat, compensated: bool) {
    ghost predicate Valid() {
      0 < samplesPerFrame <= MAX_SAMPLES_PER_FRAME
    }

    /** Where the resampler of any channel stands before the k-th frame. */
    ghost function PositionAt(k: nat): int
      requires Valid()
    {
      if k == 0 then 0 else EndPosition(samplesPerFrame, PositionAt(k - 1), ONE)
    }

    /** How many samples the k-th frame yields, whatever is in it: the first one lacks its last sample. */
    ghost function BlockSize(k: nat): nat
      requires Valid()
    {
      if compensated && k == 0 then samplesPerFrame - 1 else samplesPerFrame
    }
  }

  function Mono(frames: seq<Frame>): (s: seq<int>)
    requires forall i :: 0 <= i < |frames| ==> |frames[i]| == 1
    ensures |s| == |frames|
  {
    seq(|frames|, i requires 0 <= i < |frames| => frames[i][0])
  }

  lemma {:induction false} NeutralPosition(build: Build, k: nat)
    requires build.Valid()
    ensures build.PositionAt(k) == if k == 0 then 0 else -ONE
  {
    hide Outputs, EndPosition;
    if k > 0 {
      NeutralPosition(build, k - 1);
      NeutralStep(build.samplesPerFrame, if k == 1 then 0 else -1);
    }
  }

  /** These samples are one resampled block of one channel. */
  ghost predicate IsResampled(samples: seq<int>, last: Frame, input: seq<Frame>, build: Build, k: nat)
    requires build.Valid() && build.compensated
  {
    NeutralPosition(build, k);
    && IsFrame(last, 1) && IsBlock(input, 1) && |input| == build.samplesPerFrame
    && var output := Produced(last, input, build.PositionAt(k), ONE, 1);
       && (forall i :: 0 <= i < |output| ==> |output[i]| == 1)
       && samples == Mono(output)
  }

  /** The codec of a channel: decoder, and resampler if there is one. */
  ghost predicate Produces(codec: Codec, build: Build)
    requires build.Valid()
  {
    forall k, p :: if !build.compensated then |codec(k, p)| == build.samplesPerFrame
                   else exists last, input :: IsResampled(codec(k, p), last, input, build, k)
  }

  /** All channels of a build yield blocks of the same size, and they fit the sample buffer. */
  lemma {:induction false} SameBlockSize(codec: Codec, build: Build, k: nat, p: Packet)
    requires build.Valid() && Produces(codec, build)
    ensures |codec(k, p)| == build.BlockSize(k) <= MAX_PCM_BUFFER_SAMPLES
  {
    hide Produced, Outputs, EndPosition;
    if build.compensated {
      var last, input :| IsResampled(codec(k, p), last, input, build, k);
      NeutralPosition(build, k);
      NeutralStep(build.samplesPerFrame, if k == 0 then 0 else -1);
    }
  }

  /** What the first `n` decoded packets sound like. */
  ghost function Stream(codec: Codec, stored: seq<Packet>, decodes: seq<nat>, n: nat): seq<int>
    requires n <= |decodes| && forall k :: 0 <= k < |decodes| ==> decodes[k] < |stored|
  {
    if n == 0 then [] else Stream(codec, stored, decodes, n - 1) + codec(n - 1, stored[decodes[n - 1]])
  }

  lemma {:induction false} StreamAppend(codec: Codec, stored: seq<Packet>, stored': seq<Packet>,
                                        decodes: seq<nat>, decodes': seq<nat>, n: nat)
    requires stored <= stored' && decodes <= decodes' && n <= |decodes|
    requires forall k :: 0 <= k < |decodes| ==> decodes[k] < |stored|
    requires forall k :: 0 <= k < |decodes'| ==> decodes'[k] < |stored'|
    ensures Stream(codec, stored', decodes', n) == Stream(codec, stored, decodes, n)
  {
    if n > 0 {
      StreamAppend(codec, stored, stored', decodes, decodes', n - 1);
    }
  }

  /** Samples decoded and not yet played. */
  ghost function Pending(d: Lc3Data): seq<int>
    requires d.pcmBufferNextSample <= |d.pcmBufferSamples|
    reads d
  {
    d.pcmBufferSamples[d.pcmBufferNextSample..]
  }

  /** Fidelity of one channel: packets were decoded in arrival order, all others were dropped unread, and
      what was played plus what is pending is exactly the sound of the decoded packets. */
  ghost predicate Faithful(d: Lc3Data, codec: Codec)
    reads d, d.packets
  {
    && d.Valid() && d.pcmBufferNextSample <= |d.pcmBufferSamples|
    && d.framesDecoded == |d.decodes| && d.taken == |d.decodes| + d.dropped
    && (forall k :: 0 <= k < |d.decodes| ==> d.decodes[k] < d.taken)
    && (forall j, k :: 0 <= j < k < |d.decodes| ==> d.decodes[j] < d.decodes[k])
    && d.played + Pending(d) == Stream(codec, d.stored, d.decodes, |d.decodes|)
  }

  /** What two channels of a stream have in common. */
  datatype Shape = Shape(stored: nat, taken: nat, decodes: nat, next: nat, total: nat)

  ghost function ShapeOf(d: Lc3Data): Shape
    reads d
  {
    Shape(|d.stored|, d.taken, |d.decodes|, d.pcmBufferNextSample, |d.pcmBufferSamples|)
  }

  /** A channel right after le_audio_demo_util_sink_ringbuffer_init. */
  ghost predicate Initial(d: Lc3Data)
    reads d, d.packets
  {
    && d.Valid() && d.stored == [] && d.taken == 0 && d.dropped == 0 && d.pcmBufferIndex == NOT_DECODED
    && d.framesDecoded == 0 && d.decodes == [] && d.played == []
    && d.pcmBufferSamples == [] && d.pcmBufferNextSample == 0
  }

  lemma {:induction false} StreamGrows(codec: Codec, stored: seq<Packet>, decodes: seq<nat>, number: nat,
                                       played: seq<int>)
    requires (forall k :: 0 <= k < |decodes| ==> decodes[k] < |stored|) && number < |stored|
    requires played == Stream(codec, stored, decodes, |decodes|)
    ensures Stream(codec, stored, decodes + [number], |decodes| + 1) == played + codec(|decodes|, stored[number])
  {
    var ds, n := decodes + [number], |decodes|;
    StreamAppend(codec, stored, stored, decodes, ds, n);
    assert ds[n] == number;
    calc {
      Stream(codec, stored, ds, n + 1);
      Stream(codec, stored, ds, n) + codec(n, stored[number]);
      played + codec(n, stored[number]);
    }
  }

  method TakePacket(d: Lc3Data) returns (packet: Packet, index: nat)
    requires d.Valid() && !d.Empty()
    modifies d`readIndex, d`taken
    ensures d.Valid() && d.taken == old(d.taken) + 1 <= |d.stored|
    ensures packet == d.stored[old(d.taken)] && index < MAX_NUM_LC3_FRAMES
  {
    index := d.readIndex;
    packet := d.Head();
    d.Advance();
  }

  method SetSamples(d: Lc3Data, index: nat, samples: seq<int>, ghost number: nat)
    requires d.Valid()
    modifies d`pcmBufferIndex, d`pcmBufferSamples, d`pcmBufferNextSample, d`framesDecoded, d`decodes
    ensures d.Valid() && d.pcmBufferIndex == index && d.pcmBufferSamples == samples && d.pcmBufferNextSample == 0
    ensures d.framesDecoded == old(d.framesDecoded) + 1 && d.decodes == old(d.decodes) + [number]
  {
    d.pcmBufferIndex := index;
    d.pcmBufferNextSample := 0;
    d.pcmBufferSamples := samples;
    d.framesDecoded := d.framesDecoded + 1;
    d.decodes := d.decodes + [number];
  }

  /** One channel of the decode step. */
  method DecodeNext(d: Lc3Data, codec: Codec)
    requires Faithful(d, codec) && !d.Empty() && Pending(d) == []
    modifies d`readIndex, d`taken, d`pcmBufferIndex, d`pcmBufferSamples, d`pcmBufferNextSample,
             d`framesDecoded, d`decodes
    ensures Faithful(d, codec) && d.pcmBufferIndex != NOT_DECODED
    ensures ShapeOf(d) == Shape(|d.stored|, old(d.taken) + 1, old(|d.decodes|) + 1, 0, |d.pcmBufferSamples|)
    ensures d.pcmBufferSamples == codec(old(|d.decodes|), d.stored[old(d.taken)])
  {
    hide Stream, Lc3Data.Valid, Lc3Data.Empty;
    assert d.played + Pending(d) == d.played;
    var packet, index := TakePacket(d);
    StreamGrows(codec, d.stored, d.decodes, d.taken - 1, d.played);
    SetSamples(d, index, codec(d.framesDecoded, packet), d.taken - 1);
    assert Pending(d) == d.pcmBufferSamples;
  }

  /** What the ring and the sample buffer of a channel look like from outside. */
  lemma {:induction false} FaithfulView(d: Lc3Data, codec: Codec)
    requires Faithful(d, codec)
    ensures d.Valid() && d.pcmBufferNextSample <= |d.pcmBufferSamples|
    ensures (d.Empty() <==> |d.stored| == d.taken) && d.Available() == |d.stored| - d.taken
    ensures Pending(d) == [] <==> d.pcmBufferNextSample == |d.pcmBufferSamples|
    ensures |Pending(d)| == |d.pcmBufferSamples| - d.pcmBufferNextSample
  {
  }

  /** The same, in terms of what the channels of a stream have in common. */
  method DecodeChannel(d: Lc3Data, codec: Codec, ghost build: Build, ghost shape: Shape, ghost total: nat)
    requires Faithful(d, codec) && ShapeOf(d) == shape && shape.taken < shape.stored && shape.next == shape.total
    requires build.Valid() && Produces(codec, build) && total == build.BlockSize(shape.decodes)
    modifies d`readIndex, d`taken, d`pcmBufferIndex, d`pcmBufferSamples, d`pcmBufferNextSample,
             d`framesDecoded, d`decodes
    ensures Faithful(d, codec) && d.pcmBufferIndex != NOT_DECODED
    ensures ShapeOf(d) == Shape(shape.stored, shape.taken + 1, shape.decodes + 1, 0, total)
  {
    hide Faithful, Produces, Build.BlockSize;
    FaithfulView(d, codec);
    SameBlockSize(codec, build, shape.decodes, d.stored[d.taken]);
    DecodeNext(d, codec);
  }

  /** The first `w` positions of a channel are the samples played since `from`. */
  ghost predicate Emitted(buffer: array2<int>, channel: nat, w: nat, played: seq<int>, from: nat)
    reads buffer
  {
    && channel < buffer.Length1 && w <= buffer.Length0 && |played| == from + w
    && forall p :: 0 <= p < w ==> buffer[p, channel] == played[from + p]
  }

  /** Forgets a decoded frame once all of its samples have been copied. */
  method DiscardIfPlayed(d: Lc3Data, codec: Codec)
    requires Faithful(d, codec)
    modifies d`pcmBufferIndex
    ensures Faithful(d, codec) && ShapeOf(d) == old(ShapeOf(d))
    ensures d.pcmBufferIndex == if ShapeOf(d).next == ShapeOf(d).total then NOT_DECODED else old(d.pcmBufferIndex)
  {
    if d.pcmBufferNextSample == |d.pcmBufferSamples| {
      d.pcmBufferIndex := NOT_DECODED;
    }
  }

  /** One channel of the copy step. */
  method PlaySamples(d: Lc3Data, codec: Codec, buffer: array2<int>, channel: nat, w: nat, count: nat,
                     ghost from: nat)
    requires Faithful(d, codec) && count <= |Pending(d)|
    requires Emitted(buffer, channel, w, d.played, from) && w + count <= buffer.Length0
    modifies d`pcmBufferNextSample, d`played, buffer
    ensures Faithful(d, codec) && Emitted(buffer, channel, w + count, d.played, from)
    ensures d.pcmBufferNextSample == old(d.pcmBufferNextSample) + count && old(d.played) <= d.played
    ensures forall p, c :: 0 <= p < buffer.Length0 && 0 <= c < buffer.Length1 && c != channel ==>
              buffer[p, c] == old(buffer[p, c])
  {
    hide Stream, Slot;
    for i := 0 to count
      invariant Faithful(d, codec) && Emitted(buffer, channel, w + i, d.played, from)
      invariant d.pcmBufferNextSample == old(d.pcmBufferNextSample) + i && old(d.played) <= d.played
      invariant forall p, c :: 0 <= p < buffer.Length0 && 0 <= c < buffer.Length1 && c != channel ==>
                  buffer[p, c] == old(buffer[p, c])
    {
      var sample := d.pcmBufferSamples[d.pcmBufferNextSample];
      ghost var pending := Pending(d);
      buffer[w + i, channel] := sample;
      d.pcmBufferNextSample := d.pcmBufferNextSample + 1;
      d.played := d.played + [sample];
      assert pending == [sample] + Pending(d);
    }
  }

  method PlayChannel(d: Lc3Data, codec: Codec, buffer: array2<int>, channel: nat, w: nat, count: nat,
                     ghost from: nat, ghost shape: Shape)
    requires Faithful(d, codec) && ShapeOf(d) == shape && count <= shape.total - shape.next
    requires Emitted(buffer, channel, w, d.played, from) && w + count <= buffer.Length0
    modifies d`pcmBufferNextSample, d`played, buffer
    ensures Faithful(d, codec) && ShapeOf(d) == shape.(next := shape.next + count)
    ensures Emitted(buffer, channel, w + count, d.played, from) && old(d.played) <= d.played
    ensures forall p, c :: 0 <= p < buffer.Length0 && 0 <= c < buffer.Length1 && c != channel ==>
              buffer[p, c] == old(buffer[p, c])
  {
    hide Faithful, Emitted;
    FaithfulView(d, codec);
    PlaySamples(d, codec, buffer, channel, w, count, from);
  }

  /** One channel of store_packet. */
  method StoreChannel(d: Lc3Data, codec: Codec, data: seq<byte>, bfi: bool, ghost shape: Shape)
    requires Faithful(d, codec) && ShapeOf(d) == shape
    modifies d`readIndex, d`taken, d`writeIndex, d`stored, d`dropped, d.packets
    ensures Faithful(d, codec)
    ensures ShapeOf(d) == AfterStore(shape) && Arrived(d, old(d.stored), NO_TIME, bfi, data)
  {
    hide Stream, Slot, Lc3Data.Valid;
    ghost var stored := d.stored;
    var p := d.StorePacket(0, 0, data, bfi);
    StreamAppend(codec, stored, d.stored, d.decodes, d.decodes, |d.decodes|);
  }

  /** A frame more, and the oldest one less if 19 are waiting. */
  function AfterStore(s: Shape): Shape {
    s.(stored := s.stored + 1, taken := if s.stored - s.taken == MAX_NUM_LC3_FRAMES - 1 then s.taken + 1 else s.taken)
  }

  /** All channels of one stream. */
  class GenericSink {
    const channels: seq<Lc3Data>
    const codecs: seq<Codec>
    ghost const build: Build
    const playbackStartThresholdFrames: nat
    var playbackActive: bool
    ghost var shape: Shape             // what all channels have in common

    /** The channels are distinct objects, decoded and resampled in the same way. */
    ghost predicate Configured() {
      && |channels| == |codecs| > 0 && build.Valid()
      && (forall a, b :: 0 <= a < b < |channels| ==>
            channels[a] != channels[b] && channels[a].packets != channels[b].packets)
      && (forall c :: 0 <= c < |codecs| ==> Produces(codecs[c], build))
    }

    constructor (channels: seq<Lc3Data>, codecs: seq<Codec>, ghost build: Build, tenMs: bool)
      requires |channels| == |codecs| > 0 && build.Valid()
      requires forall a, b :: 0 <= a < b < |channels| ==>
                 channels[a] != channels[b] && channels[a].packets != channels[b].packets
      requires forall c :: 0 <= c < |codecs| ==> Produces(codecs[c], build)
      requires forall c :: 0 <= c < |channels| ==> Initial(channels[c])
      ensures Valid() && this.channels == channels && this.codecs == codecs && !playbackActive
      ensures playbackStartThresholdFrames == StartThresholdFrames(tenMs)
    {
      this.channels, this.codecs, this.build := channels, codecs, build;
      playbackStartThresholdFrames, playbackActive := StartThresholdFrames(tenMs), false;
      shape := Shape(0, 0, 0, 0, 0);
    }

    /** Decodes the oldest frame of every channel. */
    method DecodeFrames(ghost shape: Shape)
      requires Configured() && shape.taken < shape.stored && shape.next == shape.total
      requires forall c :: 0 <= c < |channels| ==> Faithful(channels[c], codecs[c]) && ShapeOf(channels[c]) == shape
      modifies channels
      ensures var after := Shape(shape.stored, shape.taken + 1, shape.decodes + 1, 0, build.BlockSize(shape.decodes));
              forall c :: 0 <= c < |channels| ==>
                && Faithful(channels[c], codecs[c]) && ShapeOf(channels[c]) == after
                && channels[c].played == old(channels[c].played)
      ensures channels[0].pcmBufferIndex != NOT_DECODED
    {
      hide Faithful, ShapeOf;
      ghost var after := Shape(shape.stored, shape.taken + 1, shape.decodes + 1, 0, build.BlockSize(shape.decodes));
      for channel := 0 to |channels|
        invariant forall c :: 0 <= c < |channels| ==>
                    && Faithful(channels[c], codecs[c])
                    && ShapeOf(channels[c]) == (if c < channel then after else shape)
                    && channels[c].played == old(channels[c].played)
        invariant channel > 0 ==> channels[0].pcmBufferIndex != NOT_DECODED
      {
        DecodeChannel(channels[channel], codecs[channel], build, shape, build.BlockSize(shape.decodes));
      }
    }

    /** Copies `count` samples of every channel. */
    method PlayFrames(buffer: array2<int>, w: nat, count: nat, ghost from: seq<nat>, ghost shape: Shape)
      requires Configured() && buffer.Length1 == |channels| == |from| && w + count <= buffer.Length0
      requires count <= shape.total - shape.next
      requires forall c :: 0 <= c < |channels| ==>
                 && Faithful(channels[c], codecs[c]) && ShapeOf(channels[c]) == shape
                 && Emitted(buffer, c, w, channels[c].played, from[c])
      modifies channels, buffer
      ensures forall c :: 0 <= c < |channels| ==>
                && Faithful(channels[c], codecs[c])
                && ShapeOf(channels[c]) == shape.(next := shape.next + count)
                && Emitted(buffer, c, w + count, channels[c].played, from[c])
                && channels[c].pcmBufferIndex == old(channels[c].pcmBufferIndex)
                && old(channels[c].played) <= channels[c].played
    {
      hide Faithful, ShapeOf;
      for channel := 0 to |channels|
        invariant forall c :: 0 <= c < |channels| ==>
                    && Faithful(channels[c], codecs[c])
                    && ShapeOf(channels[c]) == (if c < channel then shape.(next := shape.next + count) else shape)
                    && Emitted(buffer, c, if c < channel then w + count else w, channels[c].played, from[c])
                    && channels[c].pcmBufferIndex == old(channels[c].pcmBufferIndex)
                    && old(channels[c].played) <= channels[c].played
      {
        PlayChannel(channels[channel], codecs[channel], buffer, channel, w, count, from[channel], shape);
      }
    }

    /** Every channel is faithful and all are in lockstep. */
    ghost predicate InStep()
      reads *
    {
      && Configured() && shape.next <= shape.total && shape.taken <= shape.stored
      && forall c :: 0 <= c < |channels| ==> Faithful(channels[c], codecs[c]) && ShapeOf(channels[c]) == shape
    }

    /** Moreover channel 0 knows whether samples are pending, and none are while playback is stopped. */
    ghost predicate Valid()
      reads *
    {
      && InStep()
      && (channels[0].pcmBufferIndex == NOT_DECODED <==> shape.next == shape.total)
      && (!playbackActive ==> shape.next == shape.total)
    }

    /** Makes samples available if there are none and a frame is queued. */
    method DecodeIfNeeded() returns (more: bool)
      requires Valid()
      modifies this`shape, channels
      ensures InStep()
      ensures if more then channels[0].pcmBufferIndex != NOT_DECODED
              else && channels[0].pcmBufferIndex == NOT_DECODED && shape == old(shape)
                   && shape.next == shape.total && shape.taken == shape.stored
      ensures more ==> (old(shape).taken < shape.taken <= shape.stored == old(shape).stored)
                       || (shape == old(shape) && shape.next < shape.total)
      ensures forall c :: 0 <= c < |channels| ==> channels[c].played == old(channels[c].played)
    {
      hide Faithful;
      FaithfulView(channels[0], codecs[0]);
      if channels[0].pcmBufferIndex == NOT_DECODED {
        if channels[0].Empty() {
          return false;
        }
        DecodeFrames(shape);
        shape := Shape(shape.stored, shape.taken + 1, shape.decodes + 1, 0, build.BlockSize(shape.decodes));
      }
      return true;
    }

    /** Copies as many pending samples as the buffer takes. */
    method CopyPending(buffer: array2<int>, w: nat, ghost from: seq<nat>) returns (w': nat)
      requires InStep() && channels[0].pcmBufferIndex != NOT_DECODED && playbackActive
      requires buffer.Length1 == |channels| == |from| && w < buffer.Length0
      requires forall c :: 0 <= c < |channels| ==> Emitted(buffer, c, w, channels[c].played, from[c])
      modifies this`shape, channels, buffer
      ensures Valid() && w <= w' <= buffer.Length0
      ensures shape.(next := 0) == old(shape).(next := 0) && (old(shape).next < shape.total ==> w < w')
      ensures forall c :: 0 <= c < |channels| ==>
                && Emitted(buffer, c, w', channels[c].played, from[c])
                && old(channels[c].played) <= channels[c].played
    {
      hide Faithful, Emitted;
      FaithfulView(channels[0], codecs[0]);
      var samplesReady := |channels[0].pcmBufferSamples| - channels[0].pcmBufferNextSample;
      var samplesToCopy := Min(samplesReady, buffer.Length0 - w);
      PlayFrames(buffer, w, samplesToCopy, from, shape);
      shape := shape.(next := shape.next + samplesToCopy);
      w' := w + samplesToCopy;
      DiscardIfPlayed(channels[0], codecs[0]);
    }

    /** The playback loop: decode on demand and copy until the buffer is full or the rings are empty. */
    method Fill(buffer: array2<int>, ghost from: seq<nat>) returns (w: nat)
      requires Valid() && playbackActive && buffer.Length1 == |channels| == |from|
      requires forall c :: 0 <= c < |channels| ==> Emitted(buffer, c, 0, channels[c].played, from[c])
      modifies this`shape, channels, buffer
      ensures Valid() && w <= buffer.Length0
      ensures w < buffer.Length0 ==> shape.next == shape.total && shape.taken == shape.stored
      ensures forall c :: 0 <= c < |channels| ==>
                && Emitted(buffer, c, w, channels[c].played, from[c])
                && old(channels[c].played) <= channels[c].played
    {
      hide Faithful, Emitted, ShapeOf;
      w := 0;
      while w < buffer.Length0
        invariant Valid() && w <= buffer.Length0
        invariant forall c :: 0 <= c < |channels| ==>
                    && Emitted(buffer, c, w, channels[c].played, from[c])
                    && old(channels[c].played) <= channels[c].played
        decreases shape.stored - shape.taken, buffer.Length0 - w
      {
        var more := DecodeIfNeeded();
        if !more {
          break;
        }
        w := CopyPending(buffer, w, from);
      }
    }

    /** Starts playback once enough frames are queued. */
    method StartIfReady()
      requires Valid()
      modifies this`playbackActive
      ensures Valid()
      ensures playbackActive == (old(playbackActive) || shape.stored - shape.taken >= playbackStartThresholdFrames)
    {
      hide Faithful;
      FaithfulView(channels[0], codecs[0]);
      if !playbackActive && channels[0].Available() >= playbackStartThresholdFrames {
        playbackActive := true;
      }
    }

    /** Silences the rest of the buffer; on underrun playback stops. */
    method Silence(buffer: array2<int>, w: nat, ghost from: seq<nat>)
      requires Valid() && w <= buffer.Length0 && (playbackActive ==> shape.next == shape.total)
      requires |from| == |channels|
      requires forall c :: 0 <= c < |channels| ==> Emitted(buffer, c, w, channels[c].played, from[c])
      modifies this`playbackActive, buffer
      ensures Valid() && !playbackActive
      ensures forall p, c :: w <= p < buffer.Length0 && 0 <= c < buffer.Length1 ==> buffer[p, c] == 0
      ensures forall c :: 0 <= c < |channels| ==> Emitted(buffer, c, w, channels[c].played, from[c])
    {
      hide Faithful;
      forall p, c | w <= p < buffer.Length0 && 0 <= c < buffer.Length1 {
        buffer[p, c] := 0;
      }
      playbackActive := false;
    }

    /** le_audio_connection_sink_playback: the first `w` positions are the next samples of every channel, the
        rest is silence. Silence means that playback had not started or that everything queued was played. */
    method Playback(buffer: array2<int>, ghost from: seq<nat>) returns (w: nat)
      requires Valid() && buffer.Length1 == |channels| == |from|
      requires forall c :: 0 <= c < |channels| ==> from[c] == |channels[c].played|
      modifies this`shape, this`playbackActive, channels, buffer
      ensures Valid() && w <= buffer.Length0
      ensures forall c :: 0 <= c < |channels| ==>
                && old(channels[c].played) <= channels[c].played
                && Emitted(buffer, c, w, channels[c].played, from[c])
      ensures forall p, c :: w <= p < buffer.Length0 && 0 <= c < buffer.Length1 ==> buffer[p, c] == 0
      ensures var starts := old(playbackActive || shape.stored - shape.taken >= playbackStartThresholdFrames);
              && (playbackActive <==> starts && w == buffer.Length0)
              && (starts && w < buffer.Length0 ==> shape.taken == shape.stored && shape.next == shape.total)
              && (!starts ==> w == 0 && shape == old(shape))
    {
      assert forall c :: 0 <= c < |channels| ==> Emitted(buffer, c, 0, channels[c].played, from[c]);
      hide Faithful, InStep, Emitted, Configured;
      StartIfReady();
      w := 0;
      if playbackActive {
        w := Fill(buffer, from);
      }
      if w < buffer.Length0 {
        Silence(buffer, w, from);
      }
    }

    /** The channel loop of store_packet. */
    method StoreFrames(data: seq<byte>, octetsPerFrame: nat, bfi: bool)
      requires InStep()
      modifies channels, set c | c in channels :: c.packets
      ensures forall c :: 0 <= c < |channels| ==>
                && Faithful(channels[c], codecs[c]) && ShapeOf(channels[c]) == AfterStore(shape)
                && channels[c].played == old(channels[c].played)
                && channels[c].pcmBufferIndex == old(channels[c].pcmBufferIndex)
                && Arrived(channels[c], old(channels[c].stored), NO_TIME, bfi, Part(data, c, octetsPerFrame))
    {
      hide Faithful, ShapeOf, Part, AfterStore, Arrived;
      for i := 0 to |channels|
        invariant forall c :: 0 <= c < |channels| ==>
                    && Faithful(channels[c], codecs[c])
                    && ShapeOf(channels[c]) == (if c < i then AfterStore(shape) else shape)
                    && channels[c].played == old(channels[c].played)
                    && channels[c].pcmBufferIndex == old(channels[c].pcmBufferIndex)
                    && (if c < i then Arrived(channels[c], old(channels[c].stored), NO_TIME, bfi,
                                              Part(data, c, octetsPerFrame))
                        else channels[c].stored == old(channels[c].stored))
      {
        StoreChannel(channels[i], codecs[i], Part(data, i, octetsPerFrame), bfi, shape);
      }
    }

    /** store_packet for a stream that carries all channels: an SDU of unexpected length marks a lost frame. */
    method StorePacket(data: seq<byte>, octetsPerFrame: nat)
      requires Valid()
      modifies this`shape, channels, set c | c in channels :: c.packets
      ensures Valid() && shape == AfterStore(old(shape))
      ensures forall c :: 0 <= c < |channels| ==>
                && channels[c].played == old(channels[c].played)
                && Arrived(channels[c], old(channels[c].stored), NO_TIME, |data| != octetsPerFrame * |channels|,
                           Part(data, c, octetsPerFrame))
    {
      hide Faithful, ShapeOf, Part, Arrived;
      var bfi := |data| != octetsPerFrame * |channels|;
      StoreFrames(data, octetsPerFrame, bfi);
      shape := AfterStore(shape);
    }
  }
}
