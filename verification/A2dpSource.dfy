/** The pacing of a2dp_source_demo.c: a timer turns elapsed milliseconds into audio samples, samples are encoded
    into SBC frames, and frames are packed into RTP media packets. */
module A2dpSource {
  import opened ByteRing
  import opened Arith
  import A2dpSink

  const AUDIO_TIMEOUT_MS: nat := 10
  const SBC_STORAGE_SIZE: nat := 1030
  const TWO_32: nat := 0x1_0000_0000
  const MAX_FRAMES_PER_PACKET: nat := 15   // four bits in the SBC payload header

  // ----- sample clock

  /** update_period_ms, in 32-bit arithmetic. */
  function Period(timeSent: nat, now: nat): (p: nat)
    requires timeSent < TWO_32 && now < TWO_32
    ensures p < TWO_32
  {
    if timeSent > 0 then (now - timeSent) % TWO_32 else AUDIO_TIMEOUT_MS
  }

  datatype Clock = Clock(produced: nat, missed: nat)

  /** One timer tick of x thousandths of a sample. */
  function Tick(c: Clock, x: nat): Clock {
    var missed := c.missed + x % 1000;
    Clock(c.produced + x / 1000 + missed / 1000, missed % 1000)
  }

  function Ticks(c: Clock, xs: seq<nat>, n: nat): Clock
    requires n <= |xs|
  {
    if n == 0 then c else Tick(Ticks(c, xs, n - 1), xs[n - 1])
  }

  /** The clock shows what `total` thousandths of a sample amount to. */
  predicate Shows(c: Clock, total: int) {
    total >= 0 && c.produced == total / 1000 && c.missed == total % 1000
  }

  lemma {:induction false} TickShows(c: Clock, total: nat, x: nat)
    requires Shows(c, total)
    ensures Shows(Tick(c, x), total + x)
  {
  }

  lemma {:induction false} TicksShow(xs: seq<nat>, n: nat, carried: nat)
    requires n <= |xs| && carried < 1000
    ensures Shows(Ticks(Clock(0, carried), xs, n), carried + Sum(xs, n))
  {
    hide Shows, Tick;
    if n == 0 {
      ShowsCarried(carried);
    } else {
      TicksShow(xs, n - 1, carried);
      TickShows(Ticks(Clock(0, carried), xs, n - 1), carried + Sum(xs, n - 1), xs[n - 1]);
    }
  }

  lemma {:induction false} ShowsCarried(carried: nat)
    requires carried < 1000
    ensures Shows(Clock(0, carried), carried)
  {
  }

  lemma {:induction false} ShowsOne(c: Clock, a: int, b: int)
    requires Shows(c, a) && Shows(c, b)
    ensures a == b
  {
  }

  /** What the handler multiplies, in 32-bit arithmetic. */
  ghost predicate Multiplied(xs: seq<nat>, periods: seq<nat>, rate: nat) {
    |xs| == |periods| && forall i :: 0 <= i < |xs| ==> xs[i] == U32(Product(periods[i], rate))
  }

  ghost predicate AllFit(periods: seq<nat>, rate: nat, n: nat)
    requires n <= |periods|
  {
    forall i :: 0 <= i < n ==> Product(periods[i], rate) < TWO_32
  }

  /** Nothing is lost exactly if no product overflows. */
  lemma {:induction false} Overflowed(xs: seq<nat>, periods: seq<nat>, rate: nat, n: nat)
    requires Multiplied(xs, periods, rate) && n <= |xs|
    ensures Sum(xs, n) <= Product(Sum(periods, n), rate)
    ensures Sum(xs, n) == Product(Sum(periods, n), rate) <==> AllFit(periods, rate, n)
  {
    hide Product, U32;
    if n > 0 {
      Overflowed(xs, periods, rate, n - 1);
      ProductPlus(Sum(periods, n - 1), periods[n - 1], rate);
      Truncated(Product(periods[n - 1], rate));
      assert AllFit(periods, rate, n) <==> AllFit(periods, rate, n - 1) && Product(periods[n - 1], rate) < TWO_32;
    } else {
      ProductOf(rate);
    }
  }

  lemma {:induction false} Truncated(x: nat)
    ensures U32(x) <= x && (U32(x) == x <==> x < TWO_32) && x == U32(x) + x / TWO_32 * TWO_32
  {
  }

  lemma {:induction false} ShowsBounds(c: Clock, total: int)
    requires Shows(c, total)
    ensures total >= 0 && c.missed < 1000
  {
  }

  /** A tick of the wrapping product adds the period to the elapsed time and counts the overflows. */
  lemma {:induction false} OneTick(c: Clock, carried: nat, elapsed: nat, overflows: nat, period: nat, rate: nat)
    requires Shows(c, carried + Product(elapsed, rate) - overflows * TWO_32)
    ensures Shows(Tick(c, U32(Product(period, rate))),
                  carried + Product(elapsed + period, rate) - (overflows + Product(period, rate) / TWO_32) * TWO_32)
  {
    hide Shows, Tick, U32;
    var total := carried + Product(elapsed, rate) - overflows * TWO_32;
    ShowsBounds(c, total);
    Truncated(Product(period, rate));
    ProductPlus(elapsed, period, rate);
    hide Product;
    TickShows(c, total, U32(Product(period, rate)));
  }

  /** No drift: after ticks of any lengths the samples produced are the elapsed time times the rate, rounded down
      once, and the missed samples are the remainder, if and only if no single product overflows 32 bits. */
  lemma {:induction false} DriftFree(xs: seq<nat>, periods: seq<nat>, n: nat, rate: nat, carried: nat)
    requires Multiplied(xs, periods, rate) && n <= |xs| && carried < 1000
    ensures Shows(Ticks(Clock(0, carried), xs, n), carried + Product(Sum(periods, n), rate)) <==>
            AllFit(periods, rate, n)
  {
    hide Product, Shows, Ticks, AllFit;
    TicksShow(xs, n, carried);
    Overflowed(xs, periods, rate, n);
    var c, total := Ticks(Clock(0, carried), xs, n), carried + Product(Sum(periods, n), rate);
    if Shows(c, total) {
      ShowsOne(c, total, carried + Sum(xs, n));
    }
  }

  /** The period is the real time between two ticks less than 2^32 ms apart, except after a tick whose 32-bit time
      was 0: that one is taken for "never sent" and counts as 10 ms. */
  lemma {:induction false} PeriodExact(last: nat, now: nat)
    requires last <= now < last + TWO_32
    ensures Period(last % TWO_32, now % TWO_32) == now - last <==> last % TWO_32 != 0 || now - last == AUDIO_TIMEOUT_MS
  {
    var d := now % TWO_32 - last % TWO_32;
    assert d == (now - last) + (last / TWO_32 - now / TWO_32) * TWO_32;
  }

  /** The periods measured by ticks at the given real times, the first one being the first of the stream. */
  ghost predicate Measured(times: seq<nat>, periods: seq<nat>) {
    |times| == |periods| && forall i :: 0 <= i < |times| ==> periods[i] == PeriodAt(times, i)
  }

  ghost function PeriodAt(times: seq<nat>, i: nat): nat
    requires i < |times|
  {
    Period(if i == 0 then 0 else times[i - 1] % TWO_32, times[i] % TWO_32)
  }

  /** Over a run the measured periods add up to the real time, plus 10 ms for the first tick. */
  lemma {:induction false} MeasuresRealTime(times: seq<nat>, periods: seq<nat>, n: nat)
    requires Measured(times, periods) && 0 < n <= |times|
    requires forall i :: 0 < i < n ==> times[i - 1] <= times[i] < times[i - 1] + TWO_32
    requires forall i :: 0 < i < n ==> times[i - 1] % TWO_32 != 0 || times[i] - times[i - 1] == AUDIO_TIMEOUT_MS
    ensures Sum(periods, n) == AUDIO_TIMEOUT_MS + times[n - 1] - times[0]
  {
    if n == 1 {
      assert Sum(periods, 0) == 0 && Sum(periods, 1) == Sum(periods, 0) + periods[0];
      assert periods[0] == PeriodAt(times, 0);
    } else {
      MeasuresRealTime(times, periods, n - 1);
      PeriodExact(times[n - 2], times[n - 1]);
      assert periods[n - 1] == PeriodAt(times, n - 1);
    }
  }

  // ----- frames and packets

  /** The encoder: the k-th SBC frame since the stream was started. */
  type Encoder = nat -> seq<byte>

  /** The same encoder after `done` frames. */
  function Later(encoded: Encoder, done: nat): Encoder {
    (k: nat) => encoded(k + done)
  }

  ghost predicate Constant(encoded: Encoder, size: nat) {
    forall k :: |encoded(k)| == size
  }

  /** The bytes of frames from..until. */
  ghost function Frames(encoded: Encoder, from: nat, until: nat): seq<byte>
    requires from <= until
    decreases until
  {
    if from == until then [] else Frames(encoded, from, until - 1) + encoded(until - 1)
  }

  lemma {:induction false} FramesNext(encoded: Encoder, from: nat, until: nat)
    requires from <= until
    ensures Frames(encoded, from, until + 1) == Frames(encoded, from, until) + encoded(until)
  {
  }

  lemma {:induction false} NoFrames(encoded: Encoder, at: nat)
    ensures Frames(encoded, at, at) == []
  {
  }

  lemma {:induction false} FramesLength(encoded: Encoder, size: nat, from: nat, until: nat)
    requires Constant(encoded, size) && from <= until
    ensures |Frames(encoded, from, until)| == Product(until - from, size)
    decreases until
  {
    hide Product;
    if from < until {
      FramesLength(encoded, size, from, until - 1);
      ProductNext(until - 1 - from, size);
    } else {
      ProductOf(size);
    }
  }

  lemma {:induction false} FramesJoin(encoded: Encoder, a: nat, b: nat, c: nat)
    requires a <= b <= c
    ensures Frames(encoded, a, c) == Frames(encoded, a, b) + Frames(encoded, b, c)
    decreases c
  {
    if b < c {
      FramesJoin(encoded, a, b, c - 1);
      A2dpSink.Append(Frames(encoded, a, b), Frames(encoded, b, c - 1), encoded(c - 1));
    }
  }

  lemma {:induction false} Middle(a: seq<byte>, b: seq<byte>, c: seq<byte>)
    ensures (a + (b + c))[|a|..|a| + |b|] == b
  {
  }

  /** Whole frames can be cut out again. */
  lemma {:induction false} FrameAt(encoded: Encoder, size: nat, from: nat, until: nat, j: nat)
    requires Constant(encoded, size) && from + j < until
    ensures Product(j, size) + size <= |Frames(encoded, from, until)|
    ensures Frames(encoded, from, until)[Product(j, size)..Product(j, size) + size] == encoded(from + j)
  {
    hide Frames;
    var at := from + j;
    NoFrames(encoded, at);
    FramesNext(encoded, at, at);
    FramesJoin(encoded, from, at, until);
    FramesJoin(encoded, at, at + 1, until);
    FramesLength(encoded, size, from, at);
    Middle(Frames(encoded, from, at), encoded(at), Frames(encoded, at + 1, until));
  }

  datatype MediaPacket = MediaPacket(timestamp: nat, payload: seq<byte>)

  /** Frames carried by the first n packets, by their headers. */
  ghost function Carried(sent: seq<MediaPacket>, n: nat): nat
    requires n <= |sent|
  {
    if n == 0 then 0
    else Carried(sent, n - 1) + if |sent[n - 1].payload| > 0 then sent[n - 1].payload[0] as nat else 0
  }

  lemma {:induction false} CarriedExtended(sent: seq<MediaPacket>, p: MediaPacket, n: nat)
    requires n <= |sent|
    ensures Carried(sent + [p], n) == Carried(sent, n)
  {
    if n > 0 {
      CarriedExtended(sent, p, n - 1);
    }
  }

  /** Packet `p` follows `before` frames: its header counts the frames, its payload holds the next ones in order,
      and its timestamp is the number of samples before it. */
  ghost predicate Follows(p: MediaPacket, encoded: Encoder, samplesPerFrame: nat, first: nat, before: nat) {
    && |p.payload| > 0
    && p.payload[1..] == Frames(encoded, before, before + p.payload[0] as nat)
    && p.timestamp == (first + Product(before, samplesPerFrame)) % TWO_32
  }

  predicate HoldsFrames(p: MediaPacket, n: nat) {
    |p.payload| > 0 && p.payload[0] as nat == n
  }

  ghost predicate AllHold(sent: seq<MediaPacket>, n: nat) {
    Carried(sent, |sent|) == |sent| * n && forall i :: 0 <= i < |sent| ==> HoldsFrames(sent[i], n)
  }

  ghost predicate InOrder(sent: seq<MediaPacket>, encoded: Encoder, samplesPerFrame: nat, first: nat) {
    forall i :: 0 <= i < |sent| ==> Follows(sent[i], encoded, samplesPerFrame, first, Carried(sent, i))
  }

  lemma {:induction false} CarriedOneMore(sent: seq<MediaPacket>, p: MediaPacket)
    requires |p.payload| > 0
    ensures Carried(sent + [p], |sent| + 1) == Carried(sent, |sent|) + p.payload[0] as nat
  {
    var all, n := sent + [p], |sent|;
    CarriedExtended(sent, p, n);
    assert all[n] == p;
    assert Carried(all, n + 1) ==
           Carried(all, n) + if |all[n].payload| > 0 then all[n].payload[0] as nat else 0;
  }

  lemma {:induction false} InOrderExtended(sent: seq<MediaPacket>, p: MediaPacket, encoded: Encoder,
                                           samplesPerFrame: nat, first: nat)
    requires InOrder(sent, encoded, samplesPerFrame, first)
    requires Follows(p, encoded, samplesPerFrame, first, Carried(sent, |sent|))
    ensures InOrder(sent + [p], encoded, samplesPerFrame, first)
  {
    hide Follows, Carried;
    var all := sent + [p];
    forall i | 0 <= i < |all|
      ensures Follows(all[i], encoded, samplesPerFrame, first, Carried(all, i))
    {
      CarriedExtended(sent, p, i);
    }
  }

  lemma {:induction false} AllHoldNext(sent: seq<MediaPacket>, p: MediaPacket, n: nat)
    requires AllHold(sent, n) && HoldsFrames(p, n)
    ensures AllHold(sent + [p], n)
  {
    hide Carried;
    CarriedOneMore(sent, p);
    MulNext(|sent|, n);
  }

  // ----- capacity

  /** Frames in a full packet. */
  function Full(size: nat, limit: nat): nat
    requires size > 0
  {
    Min(limit, SBC_STORAGE_SIZE) / size
  }

  /** What a packet needs: one frame at least, no more than the header can count, all within the storage. */
  predicate Fits(size: nat, limit: nat) {
    && size > 0 && 1 <= Full(size, limit) <= MAX_FRAMES_PER_PACKET
    && 1 + Product(Full(size, limit), size) <= SBC_STORAGE_SIZE
  }

  /** The header byte is not counted in the fill loop. Writes stay within the storage unless frames fill its 1030
      bytes completely, and the transport, which refuses payloads above `limit`, takes a full packet unless frames
      fill the limit completely. */
  lemma {:induction false} HeaderByte(size: nat, limit: nat)
    requires 0 < size
    ensures 1 + Product(Full(size, limit), size) <= SBC_STORAGE_SIZE <==>
            limit < SBC_STORAGE_SIZE || SBC_STORAGE_SIZE % size != 0
    ensures 1 + Product(Full(size, limit), size) <= limit <==> limit > SBC_STORAGE_SIZE || limit % size != 0
  {
    var m := Min(limit, SBC_STORAGE_SIZE);
    assert m == (m / size) * size + m % size;
  }

  /** An example: 103-byte frames and a 618-byte payload limit. Every full packet has 619 bytes. */
  lemma {:induction false} HeaderByteExample()
    ensures Fits(103, 618) && 1 + Product(Full(103, 618), 103) == 618 + 1
  {
  }

  lemma {:induction false} Filled(size: nat, limit: nat, count: nat)
    requires size > 0
    ensures Min(limit, SBC_STORAGE_SIZE) - Product(count, size) >= size <==> count < Full(size, limit)
  {
    var m, q := Min(limit, SBC_STORAGE_SIZE), Full(size, limit);
    assert Product(q, size) <= m < Product(q, size) + size;
    hide Product, Full, Min;
    ProductNext(count, size);
    if count < q {
      ProductMonotone(count + 1, q, size);
    } else {
      ProductMonotone(q, count, size);
    }
  }

  /** A packet is read by the sink as it was packed: its frame size is the encoder's, and so are its frames. */
  lemma {:induction false} SinkReads(p: MediaPacket, encoded: Encoder, size: nat, samplesPerFrame: nat,
                                     first: nat, before: nat, j: nat)
    requires size > 0 && Constant(encoded, size) && Follows(p, encoded, samplesPerFrame, first, before)
    requires j < p.payload[0] as nat
    ensures A2dpSink.Quotient(|p.payload[1..]|, p.payload[0] as nat) == size
    ensures |p.payload[1..]| == Product(p.payload[0] as nat, size)
    ensures Product(j, size) + size <= |p.payload[1..]|
    ensures p.payload[1..][Product(j, size)..Product(j, size) + size] == encoded(before + j)
  {
    var n := p.payload[0] as nat;
    FramesLength(encoded, size, before, before + n);
    DivModOf(size, 0, n, |p.payload[1..]|);
    FrameAt(encoded, size, before, before + n, j);
  }

  /** Whole samples and missed samples of one period: the loop carries over every 1000 missed ones. */
  method SamplesFor(before: nat, product: nat, ghost produced: nat) returns (numSamples: nat, missed: nat)
    ensures Clock(produced + numSamples, missed) == Tick(Clock(produced, before), product)
    ensures before < 1000 && product < TWO_32 ==> numSamples < TWO_32
  {
    ghost var all := before + product % 1000;
    numSamples, missed := product / 1000, before + product % 1000;
    while missed >= 1000
      invariant product / 1000 <= numSamples && missed + 1000 * (numSamples - product / 1000) == all
    {
      numSamples, missed := numSamples + 1, missed - 1000;
    }
  }

  /** The packet as it arrives at the sink, behind its RTP header. */
  function OnAir(rtp: seq<byte>, p: MediaPacket): seq<byte> {
    rtp + p.payload
  }

  /** A packet is ignored by the sink exactly if its frames take fewer than eleven bytes, so an empty one is; any other
      arrives with its count and its frames, and never divides by zero. */
  lemma {:induction false} SinkAdmits(rtp: seq<byte>, p: MediaPacket, encoded: Encoder, size: nat,
                                      samplesPerFrame: nat, first: nat, before: nat)
    requires |rtp| == A2dpSink.MEDIA_HEADER_SIZE && size > 0 && Constant(encoded, size)
    requires Follows(p, encoded, samplesPerFrame, first, before) && p.payload[0] as nat <= MAX_FRAMES_PER_PACKET
    ensures A2dpSink.Admit(OnAir(rtp, p)) ==
            if Product(p.payload[0] as nat, size) < 11 then A2dpSink.Ignored
            else A2dpSink.Admitted(p.payload[1..], p.payload[0] as nat)
    ensures !A2dpSink.DividesByZero(OnAir(rtp, p))
  {
    var n, packet := p.payload[0] as nat, OnAir(rtp, p);
    FramesLength(encoded, size, before, before + n);
    ProductOf(size);
    assert |p.payload[1..]| == Product(n, size);
    ProductCommutes(n, size);
    ProductMonotone(1, size, n);
    ProductOf(n);
    hide Product, Frames, Constant;
    assert packet[A2dpSink.MEDIA_HEADER_SIZE] == p.payload[0];
    assert packet[A2dpSink.MEDIA_HEADER_SIZE + 1..] == p.payload[1..];
  }

  /** In particular the empty packet after a source switch. */
  lemma {:induction false} EmptyPacketIgnored(rtp: seq<byte>, p: MediaPacket, encoded: Encoder, size: nat,
                                              samplesPerFrame: nat, first: nat, before: nat)
    requires |rtp| == A2dpSink.MEDIA_HEADER_SIZE && size > 0 && Constant(encoded, size)
    requires Follows(p, encoded, samplesPerFrame, first, before) && HoldsFrames(p, 0)
    ensures A2dpSink.Admit(OnAir(rtp, p)) == A2dpSink.Ignored
  {
    SinkAdmits(rtp, p, encoded, size, samplesPerFrame, first, before);
    ProductOf(size);
  }

  /** The sending context. */
  class Source {
    var encoded: Encoder
    var frameLength: nat
    var samplesPerFrame: nat
    var sampleRate: nat
    var limit: nat                   // what the transport accepts
    const sbcStorage: array<byte>
    var maxMediaPayloadSize: nat
    var sbcStorageCount: nat
    var sbcReadyToSend: bool
    var samplesReady: nat
    var accNumMissedSamples: nat
    var timeAudioDataSent: nat
    var rtpTimestamp: nat
    var framesEncoded: nat           // state of the encoder
    ghost var carried: nat           // missed samples at the start of the stream
    ghost var backlog: nat           // samples that were waiting at that time
    ghost var elapsed: nat           // sum of the update periods since then
    ghost var overflows: nat         // overflows of the product of period and rate
    ghost var clocked: nat           // samples clocked in
    ghost var wraps: nat             // overflows of samplesReady
    ghost var first: nat             // rtpTimestamp at the start of the stream
    ghost var framesSent: nat
    ghost var sent: seq<MediaPacket>
    ghost var partial: bool          // a packet was sent that was not full

    ghost predicate Configured()
      reads this
    {
      && sbcStorage.Length == SBC_STORAGE_SIZE && frameLength > 0 && samplesPerFrame > 0
      && Constant(encoded, frameLength) && Fits(frameLength, limit)
      && maxMediaPayloadSize == Min(limit, SBC_STORAGE_SIZE)
    }

    /** No drift but for overflows, and every sample clocked in is waiting or encoded. */
    ghost predicate Clocked()
      reads this
    {
      && Shows(Clock(clocked, accNumMissedSamples), carried + Product(elapsed, sampleRate) - overflows * TWO_32)
      && samplesReady < TWO_32 && timeAudioDataSent < TWO_32
      && backlog + clocked == samplesReady + Product(framesEncoded, samplesPerFrame) + wraps * TWO_32
    }

    /** The storage holds the frames that are encoded but not sent. */
    ghost predicate Stored()
      reads this, sbcStorage
      requires Configured()
    {
      && framesSent <= framesEncoded <= framesSent + Full(frameLength, limit)
      && sbcStorageCount == Product(framesEncoded - framesSent, frameLength) < SBC_STORAGE_SIZE
      && sbcStorage[1..1 + sbcStorageCount] == Frames(encoded, framesSent, framesEncoded)
    }

    /** A packet is scheduled exactly when the storage is full. */
    ghost predicate Scheduled()
      reads this
      requires frameLength > 0
    {
      sbcReadyToSend <==> framesEncoded == framesSent + Full(frameLength, limit)
    }

    ghost predicate Sent()
      reads this
      requires frameLength > 0
    {
      && InOrder(sent, encoded, samplesPerFrame, first) && Carried(sent, |sent|) == framesSent
      && rtpTimestamp == (first + Product(framesSent, samplesPerFrame)) % TWO_32
      && (!partial ==> AllHold(sent, Full(frameLength, limit)))
    }

    /** Scheduled packets are full, or empty after a source switch. */
    ghost predicate Valid()
      reads this, sbcStorage
    {
      && Configured() && Clocked() && Stored() && Sent()
      && (Scheduled() || (sbcReadyToSend && framesEncoded == framesSent))
    }

    /** A new stream starts with the clock remainder, the waiting samples and the timestamp left from before. */
    ghost predicate Fresh()
      reads this
    {
      && framesEncoded == framesSent == elapsed == clocked == wraps == overflows == sbcStorageCount == 0
      && backlog == samplesReady < TWO_32 && sent == [] && !partial && carried == accNumMissedSamples < 1000
      && first == rtpTimestamp < TWO_32 && timeAudioDataSent < TWO_32
    }

    /** A fresh stream is valid, whether or not a packet is still scheduled. */
    lemma {:induction false} FreshValid()
      requires Configured() && Fresh()
      ensures Valid() && (Scheduled() <==> !sbcReadyToSend)
    {
      NoFrames(encoded, 0);
    }

    lemma {:induction false} Bounds()
      requires Valid()
      ensures accNumMissedSamples < 1000 && rtpTimestamp < TWO_32 && timeAudioDataSent < TWO_32
      ensures samplesReady < TWO_32 && Configured() && Constant(encoded, frameLength)
    {
    }

    /** The fill loop's room test. */
    lemma {:induction false} Room()
      requires Configured() && Stored()
      ensures maxMediaPayloadSize - sbcStorageCount >= frameLength <==>
              framesEncoded < framesSent + Full(frameLength, limit)
      ensures framesEncoded <= framesSent + Full(frameLength, limit)
    {
      hide Frames, Constant, Fits;
      Filled(frameLength, limit, framesEncoded - framesSent);
    }

    constructor (encoded: Encoder, frameLength: nat, samplesPerFrame: nat, sampleRate: nat, limit: nat)
      requires samplesPerFrame > 0 && Constant(encoded, frameLength) && Fits(frameLength, limit)
      ensures Valid() && Fresh() && Scheduled() && fresh(sbcStorage)
      ensures carried == first == timeAudioDataSent == backlog == 0
    {
      this.encoded, this.frameLength, this.samplesPerFrame := encoded, frameLength, samplesPerFrame;
      this.sampleRate, this.limit, maxMediaPayloadSize := sampleRate, limit, Min(limit, SBC_STORAGE_SIZE);
      sbcStorage := new byte[SBC_STORAGE_SIZE];
      sbcStorageCount, sbcReadyToSend, samplesReady, accNumMissedSamples := 0, false, 0, 0;
      timeAudioDataSent, rtpTimestamp, framesEncoded := 0, 0, 0;
      carried, backlog, elapsed, clocked, wraps, overflows := 0, 0, 0, 0, 0, 0;
      first, framesSent, sent, partial := 0, 0, [], false;
      new;
      FreshValid();
    }

    /** a2dp_source_configure_audio_source: drops samples and frames, and a new stream of frames begins. It leaves
        a scheduled packet scheduled, which will then be empty. */
    method ConfigureAudioSource(next: Encoder)
      requires Valid() && Constant(next, frameLength)
      modifies this`encoded, this`sbcStorageCount, this`samplesReady, this`framesEncoded, this`carried, this`backlog,
               this`elapsed, this`clocked, this`wraps, this`overflows, this`first, this`framesSent, this`sent,
               this`partial
      ensures Valid() && Fresh() && encoded == next && samplesReady == 0
      ensures Scheduled() <==> !sbcReadyToSend
    {
      hide *;
      hide Source.Valid, Source.Fresh, Source.Configured, Source.Scheduled;
      Bounds();
      Reset(next, 0);
      FreshValid();
    }

    /** Forgets the frames that are stored. */
    method Reset(next: Encoder, ready: nat)
      requires accNumMissedSamples < 1000 && rtpTimestamp < TWO_32 && timeAudioDataSent < TWO_32 && ready < TWO_32
      requires Configured() && Constant(next, frameLength)
      modifies this`encoded, this`sbcStorageCount, this`samplesReady, this`framesEncoded, this`carried, this`backlog,
               this`elapsed, this`clocked, this`wraps, this`overflows, this`first, this`framesSent, this`sent,
               this`partial
      ensures Fresh() && Configured() && encoded == next && samplesReady == ready
    {
      hide Constant, Fits, Min;
      sbcStorageCount := 0;
      samplesReady := ready;
      framesEncoded := 0;
      encoded := next;
      RestartHistory();
    }

    ghost method RestartHistory()
      modifies this`carried, this`backlog, this`elapsed, this`clocked, this`wraps, this`overflows, this`first,
               this`framesSent, this`sent, this`partial
      ensures elapsed == clocked == wraps == overflows == framesSent == 0 && sent == [] && !partial
      ensures carried == accNumMissedSamples && first == rtpTimestamp && backlog == samplesReady
    {
      elapsed := 0;
      clocked := 0;
      wraps := 0;
      overflows := 0;
      framesSent := 0;
      sent := [];
      partial := false;
      carried := accNumMissedSamples;
      backlog := samplesReady;
      first := rtpTimestamp;
    }

    /** a2dp_demo_timer_start: frames that were stored are dropped, samples that were waiting are kept. */
    method TimerStart(limit: nat)
      requires Valid() && Fits(frameLength, limit)
      modifies this`limit, this`maxMediaPayloadSize, this`sbcReadyToSend,
               this`encoded, this`sbcStorageCount, this`samplesReady, this`framesEncoded, this`carried, this`backlog,
               this`elapsed, this`clocked, this`wraps, this`overflows, this`first, this`framesSent, this`sent,
               this`partial
      ensures Valid() && Fresh() && Scheduled() && !sbcReadyToSend
      ensures samplesReady == old(samplesReady) && this.limit == limit
      ensures encoded == Later(old(encoded), old(framesEncoded))
    {
      Bounds();
      var later := Later(encoded, framesEncoded);
      assert Constant(later, frameLength);
      hide Shows, Frames, Carried, InOrder, AllHold, Source.Valid, Constant;
      Reset(later, samplesReady);
      this.limit := limit;
      maxMediaPayloadSize := Min(limit, SBC_STORAGE_SIZE);
      sbcReadyToSend := false;
      FreshValid();
    }

    /** a2dp_demo_timer_stop; the encoder goes on with `next` when streaming resumes. */
    method TimerStop(next: Encoder)
      requires Valid() && Constant(next, frameLength)
      modifies this`timeAudioDataSent, this`accNumMissedSamples, this`sbcReadyToSend,
               this`encoded, this`sbcStorageCount, this`samplesReady, this`framesEncoded, this`carried, this`backlog,
               this`elapsed, this`clocked, this`wraps, this`overflows, this`first, this`framesSent, this`sent,
               this`partial
      ensures Valid() && Fresh() && Scheduled() && encoded == next
      ensures timeAudioDataSent == accNumMissedSamples == samplesReady == 0 && !sbcReadyToSend
    {
      hide Shows, Frames, Carried, InOrder, AllHold, Source.Valid, Constant, Fits, Min;
      Bounds();
      Reset(next, 0);
      timeAudioDataSent := 0;
      accNumMissedSamples := 0;
      carried := 0;
      sbcReadyToSend := false;
      FreshValid();
    }

    /** The encoder writes behind the frames in the storage. */
    method PutFrame(frame: seq<byte>)
      requires 1 + sbcStorageCount + |frame| <= sbcStorage.Length
      modifies sbcStorage
      ensures sbcStorage[1..1 + sbcStorageCount + |frame|] == old(sbcStorage[1..1 + sbcStorageCount]) + frame
    {
      forall i | 0 <= i < |frame| {
        sbcStorage[1 + sbcStorageCount + i] := frame[i];
      }
    }

    /** One frame of a2dp_demo_fill_sbc_audio_buffer. */
    method EncodeFrame()
      requires Configured() && Clocked() && Stored() && samplesReady >= samplesPerFrame
      requires framesEncoded < framesSent + Full(frameLength, limit)
      modifies this`sbcStorageCount, this`samplesReady, this`framesEncoded, sbcStorage
      ensures Configured() && Clocked() && Stored()
      ensures framesEncoded == old(framesEncoded) + 1
      ensures samplesReady == old(samplesReady) - samplesPerFrame
    {
      hide Product, Shows, Carried, InOrder, Frames, Full;
      var frame := encoded(framesEncoded);
      ghost var n := framesEncoded - framesSent;
      ProductNext(n, frameLength);
      ProductNext(framesEncoded, samplesPerFrame);
      ProductMonotone(n + 1, Full(frameLength, limit), frameLength);
      FramesNext(encoded, framesSent, framesEncoded);
      PutFrame(frame);
      sbcStorageCount := sbcStorageCount + frameLength;
      samplesReady := samplesReady - samplesPerFrame;
      framesEncoded := framesEncoded + 1;
    }

    /** a2dp_demo_fill_sbc_audio_buffer: encodes until the samples run out or the packet is full. */
    method FillSbcAudioBuffer() returns (total: nat)
      requires Configured() && Clocked() && Stored()
      modifies this`sbcStorageCount, this`samplesReady, this`framesEncoded, sbcStorage
      ensures Configured() && Clocked() && Stored()
      ensures framesEncoded >= old(framesEncoded)
      ensures total == Product(framesEncoded - old(framesEncoded), samplesPerFrame)
      ensures samplesReady < samplesPerFrame || framesEncoded == framesSent + Full(frameLength, limit)
    {
      assert Product(0, samplesPerFrame) == 0;
      hide Product, Full, Constant, Fits, Min, Source.Stored, Source.Clocked;
      total := 0;
      Room();
      while samplesReady >= samplesPerFrame && maxMediaPayloadSize - sbcStorageCount >= frameLength
        invariant Configured() && Clocked() && Stored() && framesEncoded >= old(framesEncoded)
        invariant total == Product(framesEncoded - old(framesEncoded), samplesPerFrame)
        invariant maxMediaPayloadSize - sbcStorageCount >= frameLength <==>
                  framesEncoded < framesSent + Full(frameLength, limit)
        invariant framesEncoded <= framesSent + Full(frameLength, limit)
        decreases samplesReady
      {
        ProductNext(framesEncoded - old(framesEncoded), samplesPerFrame);
        EncodeFrame();
        total := total + samplesPerFrame;
        Room();
      }
    }

    /** The clock part of a2dp_demo_audio_timeout_handler, in 32-bit arithmetic. */
    method Elapse(now: nat) returns (numSamples: nat)
      requires Clocked() && now < TWO_32
      modifies this`accNumMissedSamples, this`timeAudioDataSent, this`samplesReady,
               this`elapsed, this`clocked, this`wraps, this`overflows
      ensures Clocked() && timeAudioDataSent == now
      ensures elapsed == old(elapsed) + Period(old(timeAudioDataSent), now)
      ensures clocked == old(clocked) + numSamples
      ensures samplesReady == (old(samplesReady) + numSamples) % TWO_32
      ensures wraps == old(wraps) + Count(old(samplesReady) + numSamples >= TWO_32)
      ensures overflows == old(overflows) + Product(Period(old(timeAudioDataSent), now), sampleRate) / TWO_32
    {
      hide Shows, Tick, Period, U32, Product;
      ShowsBounds(Clock(clocked, accNumMissedSamples), carried + Product(elapsed, sampleRate) - overflows * TWO_32);
      var updatePeriodMs := UpdatePeriod(now);
      OneTick(Clock(clocked, accNumMissedSamples), carried, elapsed, overflows, updatePeriodMs, sampleRate);
      var product := U32(Product(updatePeriodMs, sampleRate));
      numSamples, accNumMissedSamples := SamplesFor(accNumMissedSamples, product, clocked);
      timeAudioDataSent := now;
      clocked := clocked + numSamples;
      elapsed := elapsed + updatePeriodMs;
      overflows := overflows + Product(updatePeriodMs, sampleRate) / TWO_32;
      AddReady(numSamples);
    }

    method UpdatePeriod(now: nat) returns (updatePeriodMs: nat)
      requires timeAudioDataSent < TWO_32 && now < TWO_32
      ensures updatePeriodMs == Period(timeAudioDataSent, now)
    {
      updatePeriodMs := AUDIO_TIMEOUT_MS;
      if timeAudioDataSent > 0 {
        updatePeriodMs := (now - timeAudioDataSent) % TWO_32;
      }
    }

    /** A 32-bit addition. */
    method AddReady(numSamples: nat)
      requires samplesReady < TWO_32 && numSamples < TWO_32
      modifies this`samplesReady, this`wraps
      ensures samplesReady == (old(samplesReady) + numSamples) % TWO_32
      ensures wraps == old(wraps) + Count(old(samplesReady) + numSamples >= TWO_32)
      ensures samplesReady + wraps * TWO_32 == old(samplesReady) + numSamples + old(wraps) * TWO_32
    {
      if samplesReady + numSamples >= TWO_32 {
        wraps := wraps + 1;
      }
      samplesReady := (samplesReady + numSamples) % TWO_32;
    }

    /** a2dp_demo_audio_timeout_handler. `request` tells whether it asks for permission to send. */
    method AudioTimeout(now: nat) returns (request: bool)
      requires Valid() && now < TWO_32
      modifies this`accNumMissedSamples, this`timeAudioDataSent, this`samplesReady, this`elapsed, this`clocked,
               this`wraps, this`overflows, this`sbcStorageCount, this`framesEncoded, this`sbcReadyToSend, sbcStorage
      ensures Valid() && elapsed == old(elapsed) + Period(old(timeAudioDataSent), now)
      ensures old(Scheduled()) ==> Scheduled()
      ensures request <==> !old(sbcReadyToSend) && sbcReadyToSend
      ensures old(sbcReadyToSend) ==> sbcReadyToSend && framesEncoded == old(framesEncoded)
      ensures !sbcReadyToSend ==> samplesReady < samplesPerFrame
    {
      hide Product, Shows, Carried, InOrder, Frames, Full, Period, HoldsFrames, Constant, Fits;
      var numSamples := Elapse(now);
      if sbcReadyToSend {
        return false;
      }
      var total := FillSbcAudioBuffer();
      Room();
      request := sbcStorageCount + frameLength > maxMediaPayloadSize;
      if request {
        sbcReadyToSend := true;
      }
    }

    /** a2dp_demo_send_media_packet: sends what is stored; a scheduled packet is full unless the source was
        switched after it was scheduled. */
    method SendMediaPacket() returns (p: MediaPacket)
      requires Valid()
      modifies this`rtpTimestamp, this`sbcStorageCount, this`sbcReadyToSend, this`framesSent, this`sent, this`partial,
               sbcStorage
      ensures Valid() && Scheduled() && !sbcReadyToSend && sbcStorageCount == 0
      ensures sent == old(sent) + [p] && p.timestamp == old(rtpTimestamp)
      ensures framesSent == framesEncoded && HoldsFrames(p, framesSent - old(framesSent))
      ensures rtpTimestamp == (p.timestamp + Product(p.payload[0] as nat, samplesPerFrame)) % TWO_32
      ensures old(Scheduled() && sbcReadyToSend) ==> HoldsFrames(p, Full(frameLength, limit))
      ensures old(sbcReadyToSend) ==> (HoldsFrames(p, 0) <==> !old(Scheduled()))
      ensures partial <==> old(partial) || !HoldsFrames(p, Full(frameLength, limit))
    {
      hide Product, Shows, Frames, Full, Constant, Fits, Carried, InOrder, Follows, AllHold, Source.Stored, Min;
      var numSbcFrames := PacketFrames();
      p := BuildPacket(numSbcFrames);
      Record(p, numSbcFrames);
      Clear();
    }

    method Clear()
      requires Configured() && framesSent == framesEncoded
      modifies this`sbcStorageCount, this`sbcReadyToSend
      ensures Stored() && Scheduled() && !sbcReadyToSend && sbcStorageCount == 0
    {
      NoFrames(encoded, framesEncoded);
      sbcStorageCount := 0;
      sbcReadyToSend := false;
    }

    /** The packet counts as sent. */
    method Record(p: MediaPacket, numSbcFrames: nat)
      requires frameLength > 0 && Sent() && HoldsFrames(p, numSbcFrames)
      requires framesEncoded == framesSent + numSbcFrames && Follows(p, encoded, samplesPerFrame, first, framesSent)
      modifies this`rtpTimestamp, this`framesSent, this`sent, this`partial
      ensures Sent() && rtpTimestamp == (old(rtpTimestamp) + Product(numSbcFrames, samplesPerFrame)) % TWO_32
      ensures sent == old(sent) + [p] && framesSent == framesEncoded
      ensures partial == (old(partial) || numSbcFrames != Full(frameLength, limit))
    {
      hide Product, Frames, Full, Carried, InOrder, Follows, AllHold;
      InOrderExtended(sent, p, encoded, samplesPerFrame, first);
      CarriedOneMore(sent, p);
      if !partial && numSbcFrames == Full(frameLength, limit) {
        AllHoldNext(sent, p, numSbcFrames);
      }
      Advance(first, framesSent, numSbcFrames, samplesPerFrame);
      rtpTimestamp := (rtpTimestamp + Product(numSbcFrames, samplesPerFrame)) % TWO_32;
      sent := sent + [p];
      partial := partial || numSbcFrames != Full(frameLength, limit);
      framesSent := framesEncoded;
    }

    /** Prepends the SBC header. */
    method BuildPacket(numSbcFrames: nat) returns (p: MediaPacket)
      requires Configured() && Stored() && numSbcFrames == framesEncoded - framesSent <= MAX_FRAMES_PER_PACKET
      requires rtpTimestamp == (first + Product(framesSent, samplesPerFrame)) % TWO_32
      modifies sbcStorage
      ensures Stored() && HoldsFrames(p, numSbcFrames) && p.timestamp == rtpTimestamp
      ensures Follows(p, encoded, samplesPerFrame, first, framesSent)
    {
      hide Frames, Full, Constant, Fits;
      ghost var body := sbcStorage[1..1 + sbcStorageCount];
      sbcStorage[0] := numSbcFrames as byte;
      p := MediaPacket(rtpTimestamp, sbcStorage[..sbcStorageCount + 1]);
      assert sbcStorage[1..1 + sbcStorageCount] == body;
      assert p.payload[1..] == body;
    }

    /** The number of frames in the storage fits into the header. */
    method PacketFrames() returns (n: nat)
      requires Configured() && Stored()
      ensures n == framesEncoded - framesSent <= MAX_FRAMES_PER_PACKET
    {
      n := sbcStorageCount / frameLength;
      DivModOf(framesEncoded - framesSent, 0, frameLength, sbcStorageCount);
    }
  }

  lemma {:induction false} Advance(first: nat, before: nat, n: nat, samplesPerFrame: nat)
    ensures (first + Product(before + n, samplesPerFrame)) % TWO_32 ==
            ((first + Product(before, samplesPerFrame)) % TWO_32 + Product(n, samplesPerFrame)) % TWO_32
  {
    var x, y := first + Product(before, samplesPerFrame), Product(n, samplesPerFrame);
    assert Product(before + n, samplesPerFrame) == Product(before, samplesPerFrame) + Product(n, samplesPerFrame);
    ModPlus(x % TWO_32 + y, x / TWO_32, TWO_32);
    assert x + y == (x % TWO_32 + y) + x / TWO_32 * TWO_32;
  }
}
