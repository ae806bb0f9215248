/** The pull pipeline of a2dp_sink_demo.c: received SBC frames wait in a byte ring, the audio layer asks for PCM,
    frames are decoded and resampled one at a time, and what a frame yields beyond the request waits in a second
    ring. */
module A2dpSink {
  import opened ByteRing
  import opened Resampler
  import opened Arith

  const NUM_CHANNELS: nat := 2
  const BYTES_PER_FRAME: nat := 4
  const SBC_MAX_AUDIO_FRAMES_PER_BLOCK: nat := 128
  const RESAMPLE_OUTPUT_FRAMES: nat := 144
  const MAX_SBC_FRAME_SIZE: nat := 120
  const SBC_STORAGE_SIZE: nat := 110 * MAX_SBC_FRAME_SIZE
  const PCM_STORAGE_SIZE: nat := RESAMPLE_OUTPUT_FRAMES * BYTES_PER_FRAME
  const OPTIMAL_FRAMES_MIN: nat := 60
  const OPTIMAL_FRAMES_MAX: nat := 80

  /** The SBC decoder: the PCM frames of the k-th SBC frame that is decoded; none if it does not call back. */
  type Decoder = (nat, seq<byte>) -> seq<Frame>

  /** Stereo frames, at most one SBC block of them. */
  ghost predicate Stereo(decoder: Decoder) {
    forall k, f :: |decoder(k, f)| <= SBC_MAX_AUDIO_FRAMES_PER_BLOCK &&
                   (|decoder(k, f)| > 0 ==> IsBlock(decoder(k, f), NUM_CHANNELS))
  }

  // ----- bytes of frames

  function Low(x: int): byte { x % 0x100 }

  function High(x: int): byte { x / 0x100 % 0x100 }

  /** The first n stereo frames as bytes. */
  function BytesOf(frames: seq<Frame>, n: nat): (b: seq<byte>)
    requires n <= |frames| && forall i :: 0 <= i < |frames| ==> |frames[i]| == NUM_CHANNELS
    ensures |b| == BYTES_PER_FRAME * n
  {
    if n == 0 then []
    else
      var f := frames[n - 1];
      BytesOf(frames, n - 1) + [Low(f[0]), High(f[0]), Low(f[1]), High(f[1])]
  }

  /** A signed 16 bit word, low byte first. */
  function Word(low: byte, high: byte): int {
    var w := low as int + 0x100 * high as int;
    if w < 0x8000 then w else w - 0x1_0000
  }

  ghost predicate IsPcm(frames: seq<Frame>) {
    forall i :: 0 <= i < |frames| ==> IsFrame(frames[i], NUM_CHANNELS)
  }

  /** Left and right sample of every frame follow each other as little-endian words. */
  lemma {:induction false} SampleBytes(frames: seq<Frame>, n: nat, i: nat, c: nat)
    requires n <= |frames| && IsPcm(frames) && i < n && c < NUM_CHANNELS
    ensures var b, at := BytesOf(frames, n), 4 * i + 2 * c;
            Word(b[at], b[at + 1]) == frames[i][c]
  {
    hide Word, Low, High;
    assert IsFrame(frames[i], NUM_CHANNELS) && forall j :: 0 <= j < |frames| ==> |frames[j]| == NUM_CHANNELS;
    hide IsFrame, IsPcm;
    if i < n - 1 {
      SampleBytes(frames, n - 1, i, c);
    } else {
      LastFrame(BytesOf(frames, n - 1), frames[i], c);
    }
  }

  lemma {:induction false} LastFrame(front: seq<byte>, f: Frame, c: nat)
    requires IsFrame(f, NUM_CHANNELS) && c < NUM_CHANNELS
    ensures var b := front + [Low(f[0]), High(f[0]), Low(f[1]), High(f[1])];
            Word(b[|front| + 2 * c], b[|front| + 2 * c + 1]) == f[c]
  {
    WordBack(f[c]);
    hide Word, Low, High;
  }

  lemma {:induction false} WordBack(x: int)
    requires IsInt16(x)
    ensures Word(Low(x), High(x)) == x
  {
  }

  /** Reading a part of the bytes back, from a frame boundary on. */
  lemma {:induction false} ReadBack(pcm: seq<Frame>, before: seq<byte>, bytes: seq<byte>, rest: seq<byte>)
    requires IsPcm(pcm) && BytesOf(pcm, |pcm|) == before + bytes + rest
    requires |before| % BYTES_PER_FRAME == 0 && |bytes| % BYTES_PER_FRAME == 0
    ensures |before| / BYTES_PER_FRAME + |bytes| / BYTES_PER_FRAME <= |pcm|
    ensures forall j, c :: 0 <= j < |bytes| / BYTES_PER_FRAME && 0 <= c < NUM_CHANNELS ==>
              && |pcm[|before| / BYTES_PER_FRAME + j]| == NUM_CHANNELS
              && Word(bytes[4 * j + 2 * c], bytes[4 * j + 2 * c + 1]) == pcm[|before| / BYTES_PER_FRAME + j][c]
  {
    var first, all := |before| / BYTES_PER_FRAME, BytesOf(pcm, |pcm|);
    hide BytesOf, Word;
    forall j, c | 0 <= j < |bytes| / BYTES_PER_FRAME && 0 <= c < NUM_CHANNELS
      ensures |pcm[first + j]| == NUM_CHANNELS
      ensures Word(bytes[4 * j + 2 * c], bytes[4 * j + 2 * c + 1]) == pcm[first + j][c]
    {
      SampleBytes(pcm, |pcm|, first + j, c);
      assert IsFrame(pcm[first + j], NUM_CHANNELS);
      assert all[4 * (first + j) + 2 * c] == bytes[4 * j + 2 * c];
      assert all[4 * (first + j) + 2 * c + 1] == bytes[4 * j + 2 * c + 1];
    }
  }

  lemma {:induction false} BytesOfFront(a: seq<Frame>, b: seq<Frame>, n: nat)
    requires IsPcm(a) && IsPcm(b) && n <= |a|
    ensures IsPcm(a + b) && BytesOf(a + b, n) == BytesOf(a, n)
  {
    if n > 0 {
      BytesOfFront(a, b, n - 1);
    }
  }

  lemma {:induction false} BytesPlus(a: seq<Frame>, b: seq<Frame>, n: nat)
    requires IsPcm(a) && IsPcm(b) && n <= |b|
    ensures IsPcm(a + b) && BytesOf(a + b, |a| + n) == BytesOf(a, |a|) + BytesOf(b, n)
  {
    BytesOfFront(a, b, |a|);
    hide Low, High;
    if n > 0 {
      BytesPlus(a, b, n - 1);
      var x, y, f := BytesOf(a, |a|), BytesOf(b, n - 1), b[n - 1];
      var z: seq<byte> := [Low(f[0]), High(f[0]), Low(f[1]), High(f[1])];
      assert (a + b)[|a| + n - 1] == f && |f| == NUM_CHANNELS;
      assert BytesOf(a + b, |a| + n) == BytesOf(a + b, |a| + (n - 1)) + z && BytesOf(b, n) == y + z;
      hide *;
      Append(x, y, z);
    }
  }

  // ----- the stream

  /** What the resampler remembers between blocks. */
  datatype Tap = Tap(position: int, last: Frame)

  ghost predicate IsTap(t: Tap) {
    -ONE <= t.position && IsFrame(t.last, NUM_CHANNELS)
  }

  /** The resampled bytes of one block. */
  ghost function Block(t: Tap, input: seq<Frame>, step: nat): seq<byte> {
    if IsTap(t) && step > 0 && IsBlock(input, NUM_CHANNELS) then
      ProducedStereo(t.last, input, t.position, step);
      var output := Produced(t.last, input, t.position, step, NUM_CHANNELS);
      BytesOf(output, |output|)
    else []
  }

  /** What it remembers afterwards. */
  ghost function TapAfter(t: Tap, input: seq<Frame>, step: nat): Tap {
    if IsTap(t) && step > 0 && IsBlock(input, NUM_CHANNELS) then
      Tap(EndPosition(|input|, t.position, step), input[|input| - 1])
    else t
  }

  /** The stream since it was (re)started: resampler then, SBC frames decoded, and the step at each of them. */
  datatype Stream = Stream(start: Tap, frames: seq<seq<byte>>, steps: seq<nat>)

  ghost function TapAt(decoder: Decoder, s: Stream, n: nat): Tap
    requires n <= |s.frames| == |s.steps|
  {
    if n == 0 then s.start
    else TapAfter(TapAt(decoder, s, n - 1), decoder(n - 1, s.frames[n - 1]), s.steps[n - 1])
  }

  /** What the first `n` frames sound like. */
  ghost function Sound(decoder: Decoder, s: Stream, n: nat): seq<byte>
    requires n <= |s.frames| == |s.steps|
  {
    if n == 0 then []
    else Sound(decoder, s, n - 1) +
         Block(TapAt(decoder, s, n - 1), decoder(n - 1, s.frames[n - 1]), s.steps[n - 1])
  }

  /** The bytes of the first `n` frames. */
  ghost function Joined(frames: seq<seq<byte>>, n: nat): seq<byte>
    requires n <= |frames|
  {
    if n == 0 then [] else Joined(frames, n - 1) + frames[n - 1]
  }

  // ----- the stream as frames

  /** The resampled frames of one block. */
  ghost function BlockFrames(t: Tap, input: seq<Frame>, step: nat): seq<Frame> {
    if IsTap(t) && step > 0 && IsBlock(input, NUM_CHANNELS)
    then Produced(t.last, input, t.position, step, NUM_CHANNELS) else []
  }

  /** The resampled frames of the first n SBC frames. */
  ghost function Pcm(decoder: Decoder, s: Stream, n: nat): seq<Frame>
    requires n <= |s.frames| == |s.steps|
  {
    if n == 0 then []
    else Pcm(decoder, s, n - 1) +
         BlockFrames(TapAt(decoder, s, n - 1), decoder(n - 1, s.frames[n - 1]), s.steps[n - 1])
  }

  lemma {:induction false} ProducedPcm(last: Frame, input: seq<Frame>, p: int, step: nat)
    requires IsFrame(last, NUM_CHANNELS) && IsBlock(input, NUM_CHANNELS) && -ONE <= p && step > 0
    ensures IsPcm(Produced(last, input, p, step, NUM_CHANNELS))
    decreases (|input| - 1) * ONE - p
  {
    hide Outputs, IsFrame;
    if p < (|input| - 1) * ONE {
      ProducedPcm(last, input, p + step, step);
      OutputPcm(last, input, p);
      hide OutputAt;
    }
  }

  lemma {:induction false} OutputPcm(last: Frame, input: seq<Frame>, p: int)
    requires IsFrame(last, NUM_CHANNELS) && IsBlock(input, NUM_CHANNELS) && -ONE <= p < (|input| - 1) * ONE
    ensures IsFrame(OutputAt(last, input, p, NUM_CHANNELS), NUM_CHANNELS)
  {
    var a, b := Resampler.FrameAt(last, input, p / ONE), Resampler.FrameAt(last, input, p / ONE + 1);
    forall c | 0 <= c < NUM_CHANNELS ensures IsInt16(Interpolate(a[c], b[c], p % ONE)) {
      InterpolateExact(a[c], b[c], p % ONE);
    }
    hide Interpolate;
  }

  /** The bytes of the stream are those of its frames. */
  lemma {:induction false} SoundOfPcm(decoder: Decoder, s: Stream, n: nat)
    requires n <= |s.frames| == |s.steps|
    ensures IsPcm(Pcm(decoder, s, n)) && Sound(decoder, s, n) == BytesOf(Pcm(decoder, s, n), |Pcm(decoder, s, n)|)
  {
    hide IsTap, Produced, TapAfter, BytesOf;
    if n > 0 {
      SoundOfPcm(decoder, s, n - 1);
      var t, input, step := TapAt(decoder, s, n - 1), decoder(n - 1, s.frames[n - 1]), s.steps[n - 1];
      BlockOfFrames(t, input, step);
      hide Block, BlockFrames, IsPcm;
      var block := BlockFrames(t, input, step);
      BytesPlus(Pcm(decoder, s, n - 1), block, |block|);
    }
  }

  lemma {:induction false} BlockOfFrames(t: Tap, input: seq<Frame>, step: nat)
    ensures var f := BlockFrames(t, input, step); IsPcm(f) && Block(t, input, step) == BytesOf(f, |f|)
  {
    hide Produced;
    if IsTap(t) && step > 0 && IsBlock(input, NUM_CHANNELS) {
      ProducedPcm(t.last, input, t.position, step);
    }
  }

  function Longer(s: Stream, f: seq<byte>, step: nat): Stream {
    s.(frames := s.frames + [f], steps := s.steps + [step])
  }

  lemma {:induction false} Extended(decoder: Decoder, s: Stream, f: seq<byte>, step: nat, n: nat)
    requires n <= |s.frames| == |s.steps|
    ensures TapAt(decoder, Longer(s, f, step), n) == TapAt(decoder, s, n)
    ensures Sound(decoder, Longer(s, f, step), n) == Sound(decoder, s, n)
    ensures Joined(s.frames + [f], n) == Joined(s.frames, n)
  {
    hide Block, TapAfter;
    if n > 0 {
      Extended(decoder, s, f, step, n - 1);
    }
  }

  lemma {:induction false} OneMore(decoder: Decoder, s: Stream, f: seq<byte>, step: nat)
    requires |s.frames| == |s.steps|
    ensures var n, t := |s.frames|, Longer(s, f, step);
            && TapAt(decoder, t, n + 1) == TapAfter(TapAt(decoder, s, n), decoder(n, f), step)
            && Sound(decoder, t, n + 1) == Sound(decoder, s, n) + Block(TapAt(decoder, s, n), decoder(n, f), step)
            && Joined(t.frames, n + 1) == Joined(s.frames, n) + f
  {
    hide Block, TapAfter;
    var n, t := |s.frames|, Longer(s, f, step);
    Extended(decoder, s, f, step, n);
    assert t.frames[n] == f && t.steps[n] == step;
    assert Joined(t.frames, n + 1) == Joined(t.frames, n) + t.frames[n];
  }

  lemma {:induction false} Append(a: seq<byte>, b: seq<byte>, c: seq<byte>)
    ensures a + (b + c) == (a + b) + c
  {
  }

  /** Whole multiples of b in a. */
  function Quotient(a: nat, b: nat): (q: nat)
    requires b > 0
    ensures Product(q, b) <= a < Product(q, b) + b
  {
    a / b
  }

  lemma {:induction false} FrameSizePositive(length: nat, numFrames: nat)
    requires 0 < numFrames
    ensures Quotient(length, numFrames) > 0 <==> numFrames <= length
  {
    DivModOf(length / numFrames, length % numFrames, numFrames, length);
  }

  /** So many bytes are whole frames. */
  ghost predicate Whole(bytes: nat, size: nat) {
    size > 0 ==> bytes % size == 0
  }

  lemma {:induction false} WholePlus(bytes: nat, n: nat, size: nat)
    ensures Whole(bytes + Product(n, size), size) <==> Whole(bytes, size)
  {
    if size > 0 {
      ModPlus(bytes, n, size);
    }
  }

  /** Resampling keeps the number of channels. */
  lemma {:induction false} ProducedStereo(last: Frame, input: seq<Frame>, p: int, step: nat)
    requires IsFrame(last, NUM_CHANNELS) && IsBlock(input, NUM_CHANNELS) && -ONE <= p && step > 0
    ensures forall i :: 0 <= i < |Produced(last, input, p, step, NUM_CHANNELS)| ==>
              |Produced(last, input, p, step, NUM_CHANNELS)[i]| == NUM_CHANNELS
    decreases (|input| - 1) * ONE - p
  {
    hide Outputs, IsFrame;
    if p < (|input| - 1) * ONE {
      ProducedStereo(last, input, p + step, step);
      OutputStereo(last, input, p);
      hide OutputAt;
    }
  }

  lemma {:induction false} OutputStereo(last: Frame, input: seq<Frame>, p: int)
    requires IsFrame(last, NUM_CHANNELS) && IsBlock(input, NUM_CHANNELS) && -ONE <= p < (|input| - 1) * ONE
    ensures |OutputAt(last, input, p, NUM_CHANNELS)| == NUM_CHANNELS
  {
  }

  // ----- resampling factor

  /** The factor chosen from the number of buffered frames. */
  function ResamplingFactor(framesInBuffer: nat): nat {
    if framesInBuffer < OPTIMAL_FRAMES_MIN then 0x10000 - 0x100
    else if framesInBuffer <= OPTIMAL_FRAMES_MAX then 0x10000
    else 0x10000 + 0x100
  }

  /** A step that passes the assertion on the factor. */
  predicate Allowed(step: nat) {
    MinFactor(SBC_MAX_AUDIO_FRAMES_PER_BLOCK, RESAMPLE_OUTPUT_FRAMES) <= step < MAX_STEP
  }

  /** The assertion on the factor holds for every buffer level, so a decoded SBC frame never yields more than the
      144 frames the output buffers hold. */
  lemma {:induction false} FactorFits(framesInBuffer: nat)
    ensures Allowed(ResamplingFactor(framesInBuffer)) && Allowed(0x10000)
  {
  }

  /** The rate control: below 60 buffered frames the sound is stretched, above 80 it is compressed, and a fuller buffer
      is never drained more slowly. */
  lemma {:induction false} FactorDirection(level: nat, higher: nat)
    requires level <= higher
    ensures ResamplingFactor(level) <= ResamplingFactor(higher)
    ensures ResamplingFactor(level) < ONE <==> level < 60
    ensures ResamplingFactor(level) > ONE <==> level > 80
  {
  }

  /** Hence, over any blocks and up to a bounded difference, a low level yields more frames than were decoded, by one in
      256 of them, and a high level fewer. */
  lemma {:induction false} RateFollowsLevel(ns: seq<nat>, n: nat, p: int, level: nat)
    requires p >= -ONE && n <= |ns| && forall i :: 0 <= i < |ns| ==> ns[i] > 0
    ensures var (out, q) := Blocks(ns, n, p, ResamplingFactor(level));
            && (level < 60 ==> ONE * (out - Sum(ns, n)) >= 0x100 * out - ONE - p)
            && (level > 80 ==> ONE * (out - Sum(ns, n)) <= -0x100 * out + if p < 2 * ONE then 2 * ONE - p else 0)
  {
    hide Blocks, Sum, Product, ResamplingFactor;
    StepBounds(level);
    var step := ResamplingFactor(level);
    var (out, q) := Blocks(ns, n, p, step);
    NoDrift(ns, n, p, step);
    StepProduct(out, level);
  }

  lemma {:induction false} StepBounds(level: nat)
    ensures 0 < ResamplingFactor(level) < 2 * ONE
  {
  }

  lemma {:induction false} StepProduct(out: nat, level: nat)
    ensures level < 60 ==> Product(out, ResamplingFactor(level)) == ONE * out - 0x100 * out
    ensures level > 80 ==> Product(out, ResamplingFactor(level)) == ONE * out + 0x100 * out
  {
  }

  lemma {:induction false} BlockFits(t: Tap, input: seq<Frame>, step: nat)
    requires Allowed(step) && |input| <= SBC_MAX_AUDIO_FRAMES_PER_BLOCK
    ensures |Block(t, input, step)| % BYTES_PER_FRAME == 0 && |Block(t, input, step)| <= PCM_STORAGE_SIZE
  {
    hide Produced, MinFactor, BytesOf, EndPosition;
    if IsTap(t) && IsBlock(input, NUM_CHANNELS) {
      OutputFits(|input|, t.position, step, SBC_MAX_AUDIO_FRAMES_PER_BLOCK, RESAMPLE_OUTPUT_FRAMES);
    }
  }

  // ----- media packets

  const MEDIA_HEADER_SIZE: nat := 12
  const SBC_HEADER_CHECK: nat := 12   // bytes read_sbc_header asks for, although the header has one

  /** What the two header readers and the division by the number of frames make of a packet. */
  datatype Admission = Ignored | NoFrames | Admitted(payload: seq<byte>, numFrames: nat)

  function Admit(packet: seq<byte>): (a: Admission)
    ensures a.Ignored? <==> |packet| < MEDIA_HEADER_SIZE + SBC_HEADER_CHECK
    ensures a.Admitted? ==> 0 < a.numFrames <= 15 && |a.payload| + 1 >= SBC_HEADER_CHECK
  {
    if |packet| < MEDIA_HEADER_SIZE || |packet| - MEDIA_HEADER_SIZE < SBC_HEADER_CHECK then Ignored
    else
      var numFrames := packet[MEDIA_HEADER_SIZE] % 0x10;
      if numFrames == 0 then NoFrames else Admitted(packet[MEDIA_HEADER_SIZE + 1..], numFrames)
  }

  /** What handling a media packet comes to. */
  datatype MediaOutcome = Handled(factor: nat, enough: bool) | Dropped | DivisionByZero

  /** Packets that end in a division by zero: long enough to be read, with no frames, or with more frames than
      bytes. */
  predicate DividesByZero(packet: seq<byte>) {
    var a := Admit(packet);
    a.NoFrames? || (a.Admitted? && |a.payload| < a.numFrames)
  }

  /** In terms of the packet. */
  lemma {:induction false} DividesByZeroExactly(packet: seq<byte>)
    ensures DividesByZero(packet) <==>
            |packet| >= 24 && (packet[12] % 0x10 == 0 || |packet| - 13 < packet[12] % 0x10)
  {
  }

  /** Eleven bytes behind the headers with a count of zero divide by zero, and so do eleven with a count of fifteen;
      ten bytes are ignored with either count. */
  lemma {:induction false} DivisionExamples(rtp: seq<byte>, ten: seq<byte>, last: byte)
    requires |rtp| == 12 && |ten| == 10
    ensures DividesByZero(rtp + [0] + ten + [last]) && DividesByZero(rtp + [15] + ten + [last])
    ensures Admit(rtp + [0] + ten) == Ignored && Admit(rtp + [15] + ten) == Ignored
  {
  }

  lemma {:induction false} RestWhole(bytes: nat, part: nat)
    requires part <= bytes && bytes % BYTES_PER_FRAME == 0 && part % BYTES_PER_FRAME == 0
    ensures (bytes - part) % BYTES_PER_FRAME == 0
  {
  }

  class Sink {
    var decoder: Decoder
    const resample: Resample
    const sbcFrameRingBuffer: RingBuffer
    const decodedAudioRingBuffer: RingBuffer
    var sbcFrameSize: nat
    var requestOffset: nat   // request_buffer, as an index into the buffer of the current callback
    var requestFrames: nat
    var framesDecoded: nat
    ghost var received: seq<byte>         // SBC bytes accepted since playback was (re)started
    ghost var stream: Stream              // what was decoded since then
    ghost var delivered: seq<byte>        // PCM bytes handed to the audio layer

    /** The two rings are separate buffers of the sizes configured in media_processing_init. */
    ghost predicate Rings()
      reads this, sbcFrameRingBuffer, sbcFrameRingBuffer.storage,
            decodedAudioRingBuffer, decodedAudioRingBuffer.storage
    {
      && sbcFrameRingBuffer != decodedAudioRingBuffer
      && sbcFrameRingBuffer.storage != decodedAudioRingBuffer.storage
      && sbcFrameRingBuffer.Valid() && decodedAudioRingBuffer.Valid()
      && decodedAudioRingBuffer.storage.Length == PCM_STORAGE_SIZE
    }

    /** The resampler, with a step that cannot overrun the output buffer. */
    ghost predicate Resampling()
      reads this, resample
    {
      resample.Valid() && resample.numChannels == NUM_CHANNELS && Allowed(resample.srcStep) && Stereo(decoder)
    }

    ghost function ResamplerTap(): Tap
      reads this, resample
    {
      Tap(resample.Position(), resample.lastSample)
    }

    /** Received bytes are the decoded frames and the rest of the SBC ring; the resampler is where the decoded frames
        left it; their sound is what was delivered and `pending`. */
    ghost predicate Streaming(delivered: seq<byte>, pending: seq<byte>)
      reads this, resample, sbcFrameRingBuffer
    {
      && framesDecoded == |stream.frames| == |stream.steps|
      && received == Joined(stream.frames, framesDecoded) + sbcFrameRingBuffer.contents
      && ResamplerTap() == TapAt(decoder, stream, framesDecoded)
      && Sound(decoder, stream, framesDecoded) == delivered + pending
    }

    /** No byte is lost, repeated or reordered. */
    ghost predicate Valid()
      reads this, resample, sbcFrameRingBuffer, sbcFrameRingBuffer.storage,
            decodedAudioRingBuffer, decodedAudioRingBuffer.storage
    {
      && Rings() && Resampling() && Streaming(delivered, decodedAudioRingBuffer.contents)
      && |decodedAudioRingBuffer.contents| % BYTES_PER_FRAME == 0
    }

    /** With a constant frame size the SBC ring holds whole frames. */
    ghost predicate WholeFrames()
      reads this, sbcFrameRingBuffer
    {
      Whole(|sbcFrameRingBuffer.contents|, sbcFrameSize)
    }

    /** These bytes are the samples of the stream from frame number `first` on. */
    ghost predicate Carries(bytes: seq<byte>, first: nat)
      reads this
    {
      && |stream.frames| == |stream.steps| && |bytes| % BYTES_PER_FRAME == 0
      && var pcm := Pcm(decoder, stream, |stream.frames|);
         && IsPcm(pcm) && first + |bytes| / BYTES_PER_FRAME <= |pcm|
         && forall j, c :: 0 <= j < |bytes| / BYTES_PER_FRAME && 0 <= c < NUM_CHANNELS ==>
              Word(bytes[4 * j + 2 * c], bytes[4 * j + 2 * c + 1]) == pcm[first + j][c]
    }

    lemma {:induction false} SoundInOrder()
      requires Valid()
      ensures |stream.frames| == |stream.steps| && |decodedAudioRingBuffer.contents| % BYTES_PER_FRAME == 0
      ensures var pcm := Pcm(decoder, stream, |stream.frames|);
              IsPcm(pcm) && BytesOf(pcm, |pcm|) == delivered + decodedAudioRingBuffer.contents
    {
      hide Sound, Joined, RingBuffer.Valid, TapAt, Allowed, Stereo, Resample.Valid, IsPcm, BytesOf, Pcm;
      SoundOfPcm(decoder, stream, |stream.frames|);
    }

    lemma {:induction false} DeliveredWhole()
      requires Valid()
      ensures |delivered| % BYTES_PER_FRAME == 0
    {
      hide Sink.Valid, IsPcm, BytesOf, Pcm;
      SoundInOrder();
      RestWhole(|delivered + decodedAudioRingBuffer.contents|, |decodedAudioRingBuffer.contents|);
    }

    lemma {:induction false} DeliversSamples(before: seq<byte>, bytes: seq<byte>)
      requires Valid() && delivered == before + bytes
      requires |before| % BYTES_PER_FRAME == 0 && |bytes| % BYTES_PER_FRAME == 0
      ensures Carries(bytes, |before| / BYTES_PER_FRAME)
    {
      hide Sink.Valid, Word, BytesOf, IsPcm, Pcm;
      SoundInOrder();
      ReadBack(Pcm(decoder, stream, |stream.frames|), before, bytes, decodedAudioRingBuffer.contents);
    }

    constructor (decoder: Decoder)
      requires Stereo(decoder)
      ensures Valid() && this.decoder == decoder && received == [] && delivered == [] && sbcFrameSize == 0
      ensures fresh(resample) && fresh(sbcFrameRingBuffer) && fresh(decodedAudioRingBuffer)
      ensures fresh(sbcFrameRingBuffer.storage) && fresh(decodedAudioRingBuffer.storage)
    {
      this.decoder := decoder;
      resample := new Resample(NUM_CHANNELS);
      sbcFrameRingBuffer := new RingBuffer(SBC_STORAGE_SIZE);
      decodedAudioRingBuffer := new RingBuffer(PCM_STORAGE_SIZE);
      sbcFrameSize, requestOffset, requestFrames, framesDecoded := 0, 0, 0, 0;
      received, delivered := [], [];
      new;
      stream := Stream(ResamplerTap(), [], []);
      FactorFits(0);
    }

    /** The part of handle_pcm_data that goes into the request buffer. */
    method FillRequest(output: seq<byte>, buffer: array<byte>) returns (bytes: nat)
      requires |output| % BYTES_PER_FRAME == 0 && requestOffset + requestFrames * BYTES_PER_FRAME == buffer.Length
      modifies this`requestOffset, this`requestFrames, buffer
      ensures bytes <= |output| && bytes % BYTES_PER_FRAME == 0
      ensures requestOffset == old(requestOffset) + bytes <= buffer.Length
      ensures requestOffset + requestFrames * BYTES_PER_FRAME == buffer.Length
      ensures buffer[..requestOffset] == old(buffer[..requestOffset]) + output[..bytes]
      ensures buffer[requestOffset..] == old(buffer[..])[requestOffset..]
      ensures bytes < |output| ==> requestFrames == 0
    {
      var framesToCopy := Min(|output| / BYTES_PER_FRAME, requestFrames);
      bytes := framesToCopy * BYTES_PER_FRAME;
      forall i | 0 <= i < bytes {
        buffer[requestOffset + i] := output[i];
      }
      requestFrames := requestFrames - framesToCopy;
      requestOffset := requestOffset + bytes;
    }

    /** Fills the request first, the rest goes to the PCM ring. The ring is empty whenever this is called with frames
        owed, so storing never fails. */
    method StoreOutput(output: seq<byte>, buffer: array<byte>) returns (status: bool)
      requires Rings() && decodedAudioRingBuffer.contents == []
      requires |output| % BYTES_PER_FRAME == 0 && |output| <= PCM_STORAGE_SIZE
      requires requestOffset + requestFrames * BYTES_PER_FRAME == buffer.Length
      requires buffer != sbcFrameRingBuffer.storage && buffer != decodedAudioRingBuffer.storage
      modifies this`requestOffset, this`requestFrames, buffer, decodedAudioRingBuffer, decodedAudioRingBuffer.storage
      ensures status && Rings()
      ensures old(requestOffset) <= requestOffset
      ensures requestOffset + requestFrames * BYTES_PER_FRAME == buffer.Length
      ensures buffer[..requestOffset] + decodedAudioRingBuffer.contents == old(buffer[..requestOffset]) + output
      ensures buffer[requestOffset..] == old(buffer[..])[requestOffset..]
      ensures |decodedAudioRingBuffer.contents| % BYTES_PER_FRAME == 0
      ensures requestFrames > 0 ==> decodedAudioRingBuffer.contents == []
    {
      hide RingBuffer.Valid;
      var bytes := FillRequest(output, buffer);
      var rest := output[bytes..];
      assert output == output[..bytes] + rest;
      Append(old(buffer[..requestOffset]), output[..bytes], rest);
      RestWhole(|output|, bytes);
      status := true;
      if |rest| > 0 {
        status := decodedAudioRingBuffer.Write(rest);
      }
    }

    /** The resampler call of handle_pcm_data, with its output as bytes. */
    method ResampleBytes(pcm: seq<Frame>) returns (output: seq<byte>)
      requires Resampling() && IsBlock(pcm, NUM_CHANNELS) && |pcm| <= SBC_MAX_AUDIO_FRAMES_PER_BLOCK
      modifies resample`srcPos, resample`lastSample
      ensures Resampling() && resample.srcStep == old(resample.srcStep)
      ensures output == Block(old(ResamplerTap()), pcm, resample.srcStep)
      ensures ResamplerTap() == TapAfter(old(ResamplerTap()), pcm, resample.srcStep)
    {
      hide Produced, Allowed, BytesOf, IsFrame, EndPosition;
      ghost var tap := ResamplerTap();
      assert IsTap(tap);
      ProducedStereo(tap.last, pcm, tap.position, resample.srcStep);
      var frames := resample.ResampleBlock(pcm);
      output := BytesOf(frames, |frames|);
    }

    /** handle_pcm_data: resample, fill the request, spill the rest. The output fits, and storing it never fails. */
    method HandlePcmData(pcm: seq<Frame>, buffer: array<byte>) returns (status: bool)
      requires Rings() && decodedAudioRingBuffer.contents == []
      requires Resampling() && IsBlock(pcm, NUM_CHANNELS) && |pcm| <= SBC_MAX_AUDIO_FRAMES_PER_BLOCK
      requires requestOffset + requestFrames * BYTES_PER_FRAME == buffer.Length
      requires buffer != sbcFrameRingBuffer.storage && buffer != decodedAudioRingBuffer.storage
      modifies this`requestOffset, this`requestFrames, buffer, resample`srcPos, resample`lastSample,
               decodedAudioRingBuffer, decodedAudioRingBuffer.storage
      ensures status && Rings() && Resampling() && resample.srcStep == old(resample.srcStep)
      ensures ResamplerTap() == TapAfter(old(ResamplerTap()), pcm, resample.srcStep)
      ensures old(requestOffset) <= requestOffset
      ensures requestOffset + requestFrames * BYTES_PER_FRAME == buffer.Length
      ensures buffer[..requestOffset] + decodedAudioRingBuffer.contents ==
              old(buffer[..requestOffset]) + Block(old(ResamplerTap()), pcm, resample.srcStep)
      ensures buffer[requestOffset..] == old(buffer[..])[requestOffset..]
      ensures |decodedAudioRingBuffer.contents| % BYTES_PER_FRAME == 0
      ensures requestFrames > 0 ==> decodedAudioRingBuffer.contents == []
    {
      hide Block, TapAfter, RingBuffer.Valid, Allowed, IsBlock, Stereo, Resample.Valid;
      BlockFits(ResamplerTap(), pcm, resample.srcStep);
      var output := ResampleBytes(pcm);
      status := StoreOutput(output, buffer);
    }

    /** State of a callback: `before` was delivered by earlier ones, the front of the buffer by this one. While
        frames are owed the PCM ring is empty. */
    ghost predicate Pulling(buffer: array<byte>, before: seq<byte>)
      reads this, resample, sbcFrameRingBuffer, sbcFrameRingBuffer.storage,
            decodedAudioRingBuffer, decodedAudioRingBuffer.storage, buffer
    {
      && Rings() && Resampling()
      && buffer != sbcFrameRingBuffer.storage && buffer != decodedAudioRingBuffer.storage
      && requestOffset + requestFrames * BYTES_PER_FRAME == buffer.Length
      && |decodedAudioRingBuffer.contents| % BYTES_PER_FRAME == 0
      && (requestFrames > 0 ==> decodedAudioRingBuffer.contents == [])
      && Streaming(before, buffer[..requestOffset] + decodedAudioRingBuffer.contents)
    }

    /** The decoder is called with a frame, and calls back with its PCM data, if any. */
    method DecodeAndHandle(sbcFrame: seq<byte>, buffer: array<byte>)
      requires Rings() && Resampling() && decodedAudioRingBuffer.contents == [] && requestFrames > 0
      requires requestOffset + requestFrames * BYTES_PER_FRAME == buffer.Length
      requires buffer != sbcFrameRingBuffer.storage && buffer != decodedAudioRingBuffer.storage
      modifies this`requestOffset, this`requestFrames, buffer, resample`srcPos, resample`lastSample,
               decodedAudioRingBuffer, decodedAudioRingBuffer.storage
      ensures Rings() && Resampling() && resample.srcStep == old(resample.srcStep)
      ensures ResamplerTap() == TapAfter(old(ResamplerTap()), decoder(framesDecoded, sbcFrame), resample.srcStep)
      ensures old(requestOffset) <= requestOffset
      ensures requestOffset + requestFrames * BYTES_PER_FRAME == buffer.Length
      ensures buffer[..requestOffset] + decodedAudioRingBuffer.contents ==
              old(buffer[..requestOffset]) +
              Block(old(ResamplerTap()), decoder(framesDecoded, sbcFrame), resample.srcStep)
      ensures buffer[requestOffset..] == old(buffer[..])[requestOffset..]
      ensures |decodedAudioRingBuffer.contents| % BYTES_PER_FRAME == 0
      ensures requestFrames > 0 ==> decodedAudioRingBuffer.contents == []
    {
      hide RingBuffer.Valid, Allowed, Resample.Valid, Produced, EndPosition, BytesOf;
      var pcm := decoder(framesDecoded, sbcFrame);
      if |pcm| > 0 {
        hide Block, TapAfter;
        var status := HandlePcmData(pcm, buffer);
      } else {
        assert Block(ResamplerTap(), pcm, resample.srcStep) == [];
        assert buffer[..requestOffset] + [] == buffer[..requestOffset];
      }
    }

    /** One round of the decode loop. */
    method DecodeFrame(buffer: array<byte>, ghost before: seq<byte>)
      requires Pulling(buffer, before) && requestFrames > 0
      requires 0 < sbcFrameSize <= |sbcFrameRingBuffer.contents|
      modifies this`requestOffset, this`requestFrames, this`framesDecoded, this`stream, buffer,
               resample`srcPos, resample`lastSample,
               sbcFrameRingBuffer, decodedAudioRingBuffer, decodedAudioRingBuffer.storage
      ensures Pulling(buffer, before)
      ensures sbcFrameRingBuffer.contents == old(sbcFrameRingBuffer.contents)[sbcFrameSize..]
      ensures old(requestOffset) <= requestOffset
      ensures buffer[requestOffset..] == old(buffer[..])[requestOffset..]
      ensures |stream.frames| == |old(stream.frames)| + 1 && old(stream.frames) <= stream.frames
      ensures |stream.frames[|stream.frames| - 1]| == sbcFrameSize
      ensures old(WholeFrames()) ==> WholeFrames()
    {
      hide RingBuffer.Valid, Sound, Joined, TapAt, Block, TapAfter, Allowed, Resample.Valid, Stereo;
      ghost var front, queued, s, tap := buffer[..requestOffset], sbcFrameRingBuffer.contents, stream, ResamplerTap();
      assert front + decodedAudioRingBuffer.contents == front;
      var sbcFrame := sbcFrameRingBuffer.Read(sbcFrameSize);
      assert queued == sbcFrame + sbcFrameRingBuffer.contents;
      WholePlus(|sbcFrameRingBuffer.contents|, 1, sbcFrameSize);
      ProductOf(sbcFrameSize);
      hide Whole, Product;
      DecodeAndHandle(sbcFrame, buffer);
      ghost var step := resample.srcStep;
      OneMore(decoder, s, sbcFrame, step);
      Append(Joined(s.frames, |s.frames|), sbcFrame, sbcFrameRingBuffer.contents);
      Append(before, front, Block(tap, decoder(framesDecoded, sbcFrame), step));
      framesDecoded := framesDecoded + 1;
      stream := Longer(s, sbcFrame, step);
    }

    /** Then decode frames until the request is met or no whole frame is left. A frame larger than the local buffer
        overruns it. */
    method DecodeLoop(buffer: array<byte>, ghost before: seq<byte>) returns (overrun: bool)
      requires Pulling(buffer, before) && sbcFrameSize > 0
      modifies this`requestOffset, this`requestFrames, this`framesDecoded, this`stream, buffer,
               resample`srcPos, resample`lastSample,
               sbcFrameRingBuffer, decodedAudioRingBuffer, decodedAudioRingBuffer.storage
      ensures Pulling(buffer, before) && old(requestOffset) <= requestOffset
      ensures buffer[requestOffset..] == old(buffer[..])[requestOffset..]
      ensures overrun <==> sbcFrameSize > MAX_SBC_FRAME_SIZE && old(requestFrames) > 0 &&
                           |old(sbcFrameRingBuffer.contents)| >= sbcFrameSize
      ensures !overrun && requestFrames > 0 ==> |sbcFrameRingBuffer.contents| < sbcFrameSize
      ensures old(stream.frames) <= stream.frames
      ensures forall k :: |old(stream.frames)| <= k < |stream.frames| ==> |stream.frames[k]| == sbcFrameSize
      ensures old(WholeFrames()) ==> WholeFrames()
    {
      hide Sound, Joined, RingBuffer.Valid, TapAt, Allowed, Stereo, Resample.Valid;
      overrun := false;
      while requestFrames > 0 && sbcFrameRingBuffer.BytesAvailable() >= sbcFrameSize
        invariant Pulling(buffer, before) && old(requestOffset) <= requestOffset
        invariant buffer[requestOffset..] == old(buffer[..])[requestOffset..]
        invariant old(stream.frames) <= stream.frames
        invariant forall k :: |old(stream.frames)| <= k < |stream.frames| ==> |stream.frames[k]| == sbcFrameSize
        invariant old(WholeFrames()) ==> WholeFrames()
        invariant sbcFrameSize > MAX_SBC_FRAME_SIZE ==>
                    requestFrames == old(requestFrames) &&
                    sbcFrameRingBuffer.contents == old(sbcFrameRingBuffer.contents)
        decreases |sbcFrameRingBuffer.contents|
      {
        if sbcFrameSize > MAX_SBC_FRAME_SIZE {
          return true;
        }
        DecodeFrame(buffer, before);
      }
    }

    /** First fill from what earlier frames left over. */
    method ReadLeftover(buffer: array<byte>)
      requires Valid() && buffer.Length % BYTES_PER_FRAME == 0
      requires buffer != sbcFrameRingBuffer.storage && buffer != decodedAudioRingBuffer.storage
      modifies this`requestOffset, this`requestFrames, buffer, decodedAudioRingBuffer
      ensures Pulling(buffer, delivered) && requestOffset <= buffer.Length
      ensures buffer[requestOffset..] == old(buffer[..])[requestOffset..]
      ensures requestFrames > 0 <==> buffer.Length > |old(decodedAudioRingBuffer.contents)|
    {
      hide Sound, Joined, RingBuffer.Valid, TapAt, Allowed, Stereo, Resample.Valid;
      ghost var leftover := decodedAudioRingBuffer.contents;
      var data := decodedAudioRingBuffer.Read(buffer.Length);
      forall i | 0 <= i < |data| {
        buffer[i] := data[i];
      }
      RestWhole(|leftover|, |data|);
      RestWhole(buffer.Length, |data|);
      requestOffset := |data|;
      requestFrames := (buffer.Length - |data|) / BYTES_PER_FRAME;
      assert buffer[..requestOffset] == data;
      assert leftover == data + decodedAudioRingBuffer.contents;
    }

    /** The request is met as far as possible: what is in front of the buffer counts as delivered. */
    method Finish(buffer: array<byte>) returns (filled: nat)
      requires Pulling(buffer, delivered)
      modifies this`delivered
      ensures Valid() && filled == requestOffset <= buffer.Length
      ensures buffer.Length % BYTES_PER_FRAME == 0 ==> filled % BYTES_PER_FRAME == 0
      ensures delivered == old(delivered) + buffer[..filled]
    {
      hide Sound, Joined, RingBuffer.Valid, TapAt, Allowed, Stereo, Resample.Valid;
      filled := requestOffset;
      Append(delivered, buffer[..filled], decodedAudioRingBuffer.contents);
      delivered := delivered + buffer[..filled];
    }

    /** playback_handler: before the first packet the buffer is silenced. Afterwards its front is the next part of
        the stream; it is shorter than the buffer only if both rings are exhausted, and the buffer behind it is
        left as it was. `overrun` tells that a frame larger than the local buffer would have to be decoded. */
    method PlaybackHandler(buffer: array<byte>) returns (filled: nat, overrun: bool)
      requires Valid() && buffer.Length % BYTES_PER_FRAME == 0
      requires buffer != sbcFrameRingBuffer.storage && buffer != decodedAudioRingBuffer.storage
      modifies this`requestOffset, this`requestFrames, this`framesDecoded, this`stream, this`delivered, buffer,
               resample`srcPos, resample`lastSample,
               sbcFrameRingBuffer, decodedAudioRingBuffer, decodedAudioRingBuffer.storage
      ensures Valid() && filled <= buffer.Length
      ensures overrun <==> sbcFrameSize > MAX_SBC_FRAME_SIZE &&
                           buffer.Length > |old(decodedAudioRingBuffer.contents)| &&
                           |old(sbcFrameRingBuffer.contents)| >= sbcFrameSize
      ensures if sbcFrameSize == 0 then
                delivered == old(delivered) && filled == 0 && forall i :: 0 <= i < buffer.Length ==> buffer[i] == 0
              else
                && delivered == old(delivered) + buffer[..filled]
                && Carries(buffer[..filled], |old(delivered)| / BYTES_PER_FRAME)
                && buffer[filled..] == old(buffer[..])[filled..]
                && (!overrun && filled < buffer.Length ==>
                      decodedAudioRingBuffer.contents == [] && |sbcFrameRingBuffer.contents| < sbcFrameSize)
      ensures old(stream.frames) <= stream.frames
      ensures forall k :: |old(stream.frames)| <= k < |stream.frames| ==> |stream.frames[k]| == sbcFrameSize
      ensures old(WholeFrames()) ==> WholeFrames()
    {
      hide Sound, Joined, RingBuffer.Valid, TapAt, Allowed, Stereo, Resample.Valid;
      if sbcFrameSize == 0 {
        forall i | 0 <= i < buffer.Length {
          buffer[i] := 0;
        }
        return 0, false;
      }
      DeliveredWhole();
      ReadLeftover(buffer);
      overrun := DecodeLoop(buffer, delivered);
      filled := Finish(buffer);
      hide Carries;
      DeliversSamples(old(delivered), buffer[..filled]);
    }

    /** handle_l2cap_media_data_packet with an audio sink. A packet that is too short for the header readers is dropped
        without a trace, and one that does not fit into the ring is dropped as a whole. */
    method HandleMediaPacket(packet: seq<byte>) returns (outcome: MediaOutcome)
      requires Valid()
      modifies this`sbcFrameSize, this`received, resample`srcStep, sbcFrameRingBuffer, sbcFrameRingBuffer.storage
      ensures Valid() && (outcome == Dropped <==> Admit(packet) == Ignored)
      ensures outcome == DivisionByZero <==> DividesByZero(packet)
      ensures var a := Admit(packet);
              && sbcFrameSize == (if a.Admitted? then Quotient(|a.payload|, a.numFrames) else old(sbcFrameSize))
              && var fits := a.Admitted? &&
                             |old(sbcFrameRingBuffer.contents)| + |a.payload| <= sbcFrameRingBuffer.storage.Length;
                 && received == (if fits then old(received) + a.payload else old(received))
                 && sbcFrameRingBuffer.contents ==
                    (if fits then old(sbcFrameRingBuffer.contents) + a.payload else old(sbcFrameRingBuffer.contents))
                 && ((a.Admitted? && |a.payload| == Product(a.numFrames, sbcFrameSize) &&
                      Whole(|old(sbcFrameRingBuffer.contents)|, sbcFrameSize)) ==> WholeFrames())
      ensures if outcome.Handled? then
                && sbcFrameSize > 0
                && var level := Quotient(|sbcFrameRingBuffer.contents|, sbcFrameSize);
                   && outcome.factor == resample.srcStep == ResamplingFactor(level)
                   && (outcome.factor < 0x10000 <==> level < 60) && (outcome.factor > 0x10000 <==> level > 80)
                   && (outcome.enough <==> level >= 60)
              else resample.srcStep == old(resample.srcStep)
    {
      hide Quotient, ResamplingFactor, RingBuffer.Valid, Sound, Joined, TapAt, Allowed, Stereo, Resample.Valid, Whole,
           Product, Admit;
      match Admit(packet) {
        case Ignored =>
          outcome := Dropped;
        case NoFrames =>
          outcome := DivisionByZero;
        case Admitted(payload, numFrames) =>
          FrameSizePositive(|payload|, numFrames);
          StoreMedia(payload, Quotient(|payload|, numFrames), numFrames);
          if sbcFrameSize == 0 {
            return DivisionByZero;
          }
          var framesInBuffer := Quotient(sbcFrameRingBuffer.BytesAvailable(), sbcFrameSize);
          FactorDirection(framesInBuffer, framesInBuffer);
          SetFactor(ResamplingFactor(framesInBuffer), framesInBuffer);
          outcome := Handled(ResamplingFactor(framesInBuffer), framesInBuffer >= OPTIMAL_FRAMES_MIN);
      }
    }

    method SetFactor(factor: nat, ghost framesInBuffer: nat)
      requires Valid() && factor == ResamplingFactor(framesInBuffer)
      modifies resample`srcStep
      ensures Valid() && resample.srcStep == factor
    {
      hide RingBuffer.Valid, Sound, Joined, TapAt, Stereo;
      FactorFits(framesInBuffer);
      resample.SetFactor(factor);
    }

    method StoreMedia(payload: seq<byte>, frameSize: nat, ghost numFrames: nat)
      requires Valid()
      modifies this`sbcFrameSize, this`received, sbcFrameRingBuffer, sbcFrameRingBuffer.storage
      ensures Valid() && sbcFrameSize == frameSize
      ensures var fits := |old(sbcFrameRingBuffer.contents)| + |payload| <= sbcFrameRingBuffer.storage.Length;
              && received == (if fits then old(received) + payload else old(received))
              && sbcFrameRingBuffer.contents ==
                 (if fits then old(sbcFrameRingBuffer.contents) + payload else old(sbcFrameRingBuffer.contents))
      ensures |payload| == Product(numFrames, frameSize) && Whole(|old(sbcFrameRingBuffer.contents)|, frameSize)
              ==> WholeFrames()
    {
      hide RingBuffer.Valid, Sound, Joined, TapAt, Allowed, Stereo, Resample.Valid, Whole, Product;
      WholePlus(|sbcFrameRingBuffer.contents|, numFrames, frameSize);
      sbcFrameSize := frameSize;
      Append(Joined(stream.frames, framesDecoded), sbcFrameRingBuffer.contents, payload);
      var status := sbcFrameRingBuffer.Write(payload);
      if status {
        received := received + payload;
      }
    }

    /** media_processing_pause discards what is pending; `next` is what the decoder does afterwards, the resampler goes
        on from where it is. */
    method Pause(next: Decoder)
      requires Valid() && Stereo(next)
      modifies this`decoder, this`received, this`stream, this`delivered, this`framesDecoded,
               sbcFrameRingBuffer, decodedAudioRingBuffer
      ensures Valid() && WholeFrames() && decoder == next && received == [] && delivered == []
    {
      hide *;
      hide Sink.Rings, Sink.Resampling, Sink.Streaming;
      ValidParts();
      ClearRings();
      Restart(next);
    }

    lemma {:induction false} ValidParts()
      requires Valid()
      ensures Rings() && Resampling()
    {
    }

    method ClearRings()
      requires Rings()
      modifies sbcFrameRingBuffer, decodedAudioRingBuffer
      ensures Rings() && sbcFrameRingBuffer.contents == [] && decodedAudioRingBuffer.contents == []
    {
      hide RingBuffer.Valid;
      decodedAudioRingBuffer.Reset();
      sbcFrameRingBuffer.Reset();
    }

    method Restart(next: Decoder)
      requires Rings() && Resampling() && Stereo(next)
      requires sbcFrameRingBuffer.contents == [] && decodedAudioRingBuffer.contents == []
      modifies this`decoder, this`received, this`stream, this`delivered, this`framesDecoded
      ensures Valid() && WholeFrames() && decoder == next && received == [] && delivered == []
    {
      hide Allowed, Stereo, Resample.Valid, RingBuffer.Valid;
      decoder := next;
      received := [];
      delivered := [];
      framesDecoded := 0;
      stream := Stream(ResamplerTap(), [], []);
    }
  }
}
