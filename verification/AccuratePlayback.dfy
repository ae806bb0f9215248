/** The accurate playback callback of le_audio_demo_util_sink.c on its own data: 32 bit times that wrap,
    16 bit counters, ring indices and the decoded-frame cache. It is proved to follow the plan, for every queue,
    every end time and every state of the cache. */
module AccuratePlayback {
  import opened Arith
  import opened ByteRing
  import opened Lc3Ring
  import opened AccuratePlan

  /** Times of one callback lie in one half of the clock's range, so they neither wrap nor compare wrongly. */
  predicate InEpoch(base: nat, t: int) {
    base <= t < base + 0x8000_0000 && t < 0x1_0000_0000
  }

  lemma {:induction false} DeltaExact(base: nat, a: uint32, b: uint32)
    requires InEpoch(base, a) && InEpoch(base, b)
    ensures TimeDelta(a, b) == a - b
  {
  }

  function WindowOf(p: Packet): Window { Window(p.startTimeUs, p.durationUs) }

  function Windows(q: seq<Packet>): (r: seq<Window>)
    ensures |r| == |q| && forall i :: 0 <= i < |q| ==> r[i] == WindowOf(q[i])
  {
    seq(|q|, i requires 0 <= i < |q| => WindowOf(q[i]))
  }

  /** What the callback may assume: times that do not wrap, and a decoder that fills a frame. */
  ghost predicate Timed(r: Request, base: nat, q: seq<Packet>) {
    && InEpoch(base, r.t0) && InEpoch(base, r.end)
    && forall i :: 0 <= i < |q| ==> InEpoch(base, q[i].startTimeUs) && InEpoch(base, WindowOf(q[i]).End())
  }

  // ----- the decoded-frame cache

  /** The cache holds the samples of packet number `decoded` and is labelled with its slot. */
  ghost predicate CacheValid(d: Lc3Data, decode: Packet -> seq<int>)
    reads d
  {
    && (d.decoded < 0 <==> d.pcmBufferIndex == NOT_DECODED)
    && (d.decoded >= 0 ==>
          && d.decoded < |d.stored|
          && d.pcmBufferIndex == Slot(d.decoded)
          && d.pcmBufferSamples == decode(d.stored[d.decoded]))
  }

  /** The ring holds the packets of `q` from number `i` on. */
  ghost predicate Ready(d: Lc3Data, decode: Packet -> seq<int>, q: seq<Packet>, i: nat)
    reads d, d.packets
  {
    d.Valid() && CacheValid(d, decode) && i <= |q| && d.Queue() == q[i..]
  }

  /** What is played for the oldest packet: its samples if it has to be decoded, else those in the cache. */
  ghost function NextSound(d: Lc3Data, decode: Packet -> seq<int>, packet: Packet, ahead: nat): seq<int>
    reads d
  {
    if d.pcmBufferIndex == Slot(d.taken + ahead) then d.pcmBufferSamples else decode(packet)
  }

  /** Slot label and samples of the cache. */
  datatype Cache = Cache(slot: nat, samples: seq<int>)

  ghost function CacheOf(d: Lc3Data): Cache
    reads d
  {
    Cache(d.pcmBufferIndex, d.pcmBufferSamples)
  }

  /** Decodes the oldest packet unless the cache is labelled with its slot. The samples are then those of the oldest
      packet if and only if it was decoded now, or the packet in the cache sounds the same. */
  method DecodeHead(d: Lc3Data, decode: Packet -> seq<int>)
    requires d.Valid() && CacheValid(d, decode) && !d.Empty()
    modifies d`pcmBufferIndex, d`pcmBufferSamples, d`decoded
    ensures d.Valid() && CacheValid(d, decode) && d.pcmBufferIndex == d.readIndex
    ensures d.pcmBufferSamples == old(NextSound(d, decode, d.Head(), 0))
    ensures d.pcmBufferSamples == decode(d.Head()) <==>
            old(d.pcmBufferIndex != d.readIndex) || decode(d.stored[old(d.decoded)]) == decode(d.Head())
  {
    var index := d.readIndex;
    if d.pcmBufferIndex != index {
      d.pcmBufferSamples := decode(d.packets[index]);
      d.pcmBufferIndex := index;
      d.decoded := d.taken;
    }
  }

  /** Storing leaves the cache honest about the packet it holds. */
  method StorePacket(d: Lc3Data, decode: Packet -> seq<int>, due: Due, data: seq<byte>, bfi: bool)
    returns (p: Packet)
    requires d.Valid() && CacheValid(d, decode)
    modifies d`readIndex, d`taken, d`writeIndex, d`stored, d`dropped, d.packets
    ensures d.Valid() && CacheValid(d, decode) && d.Queue() == Enqueue(old(d.Queue()), p)
    ensures p == Packet(due.startTimeUs, due.durationUs, p.lc3Frame, bfi) && (!bfi ==> p.lc3Frame == data)
    ensures d.stored == old(d.stored) + [p] && d.taken == old(if d.Full() then d.taken + 1 else d.taken)
  {
    hide Slot, Lc3Data.Valid, Lc3Data.Queue, Lc3Data.Full, Enqueue;
    p := d.StorePacket(due.startTimeUs, due.durationUs, data, bfi);
  }

  method NextPacket(d: Lc3Data, decode: Packet -> seq<int>, ghost q: seq<Packet>, ghost i: nat)
    requires Ready(d, decode, q, i) && i < |q|
    modifies d`readIndex, d`taken
    ensures Ready(d, decode, q, i + 1) && d.taken == old(d.taken) + 1
  {
    hide Slot, Lc3Data.Full;
    d.Advance();
  }

  // ----- which samples a callback plays

  /** The first packet that has not ended when the buffer starts. */
  ghost function FirstLive(q: seq<Packet>, t0: int, i: nat): (f: nat)
    requires i <= |q|
    ensures i <= f <= |q|
    ensures forall k :: i <= k < f ==> WindowOf(q[k]).End() <= t0
    ensures f < |q| ==> t0 < WindowOf(q[f]).End()
    decreases |q| - i
  {
    if i == |q| || t0 < WindowOf(q[i]).End() then i else FirstLive(q, t0, i + 1)
  }

  /** Packets up to the first live one are dropped or taken from the cache, all others are decoded. */
  ghost function Heard(d: Lc3Data, decode: Packet -> seq<int>, q: seq<Packet>, t0: int): (s: seq<seq<int>>)
    reads d
    ensures |s| == |q|
    ensures forall k :: 0 <= k < |q| ==>
              s[k] == if k == FirstLive(q, t0, 0) then NextSound(d, decode, q[k], k) else decode(q[k])
  {
    seq(|q|, k requires 0 <= k < |q| reads d =>
        if k == FirstLive(q, t0, 0) then NextSound(d, decode, q[k], k) else decode(q[k]))
  }

  ghost function Decoded(decode: Packet -> seq<int>, q: seq<Packet>): (s: seq<seq<int>>)
    ensures |s| == |q| && forall k :: 0 <= k < |q| ==> s[k] == decode(q[k])
  {
    seq(|q|, k requires 0 <= k < |q| => decode(q[k]))
  }

  /** Only the first live packet can sound like another one, and does if the cache is labelled with its slot. */
  lemma {:induction false} CachedSound(d: Lc3Data, decode: Packet -> seq<int>, q: seq<Packet>, t0: int)
    requires Ready(d, decode, q, 0)
    ensures var f, heard, own := FirstLive(q, t0, 0), Heard(d, decode, q, t0), Decoded(decode, q);
            && (forall k :: 0 <= k < |q| && k != f ==> heard[k] == own[k])
            && if f < |q| && d.pcmBufferIndex == Slot(d.taken + f)
               then && 0 <= d.decoded < |d.stored| && heard[f] == d.pcmBufferSamples == decode(d.stored[d.decoded])
                    && own[f] == decode(q[f])
               else heard == own
  {
    hide FirstLive, Lc3Data.Queue;
    assert Slot(d.taken + FirstLive(q, t0, 0)) < MAX_NUM_LC3_FRAMES;
  }

  /** Every packet would be decoded as it was sent if and only if the first live packet is not in the slot of the
      cache, or the cached packet sounds the same. */
  lemma {:induction false} HeardRight(d: Lc3Data, decode: Packet -> seq<int>, q: seq<Packet>, t0: int)
    requires Ready(d, decode, q, 0)
    ensures var f := FirstLive(q, t0, 0);
            Heard(d, decode, q, t0) == Decoded(decode, q) <==>
            (f < |q| && d.pcmBufferIndex == Slot(d.taken + f) ==> decode(d.stored[d.decoded]) == decode(q[f]))
  {
    CachedSound(d, decode, q, t0);
    hide FirstLive, Lc3Data.Queue, Lc3Data.Valid, Heard, Decoded;
  }

  /** A packet gets the cached samples if and only if it was stored a multiple of 20 packets behind the cached one. */
  lemma {:induction false} CacheSlot(d: Lc3Data, decode: Packet -> seq<int>, number: nat)
    requires d.Valid() && CacheValid(d, decode) && d.decoded >= 0
    ensures d.pcmBufferIndex == Slot(number) <==> (number - d.decoded) % MAX_NUM_LC3_FRAMES == 0
  {
    hide Slot;
    SameSlot(d.decoded, number);
  }

  /** The cache gives the right sound for packet k when it comes up next. */
  ghost predicate Gives(d: Lc3Data, decode: Packet -> seq<int>, q: seq<Packet>, sounds: seq<seq<int>>, i: nat, k: nat)
    reads d
  {
    i <= k < |q| == |sounds| ==> NextSound(d, decode, q[k], k - i) == sounds[k]
  }

  /** Before the first packet is decoded the cache matters for the first live one, afterwards for none. */
  ghost predicate Tuned(d: Lc3Data, decode: Packet -> seq<int>, q: seq<Packet>, sounds: seq<seq<int>>, i: nat,
                        first: nat, live: bool)
    reads d
  {
    && |sounds| == |q| && (forall k :: first < k < |q| ==> sounds[k] == decode(q[k]))
    && (if live then first <= i && forall k :: i <= k < |q| ==> Gives(d, decode, q, sounds, i, k)
        else i <= first && Gives(d, decode, q, sounds, i, first))
  }

  /** Read index and cache when a callback starts. */
  datatype Before = Before(taken: nat, cache: Cache)

  ghost function StateOf(d: Lc3Data): Before
    reads d
  {
    Before(d.taken, CacheOf(d))
  }

  /** Since `was` the packets below `e.next` have left the ring, and the cache holds what was played for packet
      `e.decoded`, or what it held before if nothing was decoded. */
  ghost predicate Holds(d: Lc3Data, sounds: seq<seq<int>>, was: Before, e: Remains)
    reads d
  {
    && d.taken == was.taken + e.next && e.decoded < |sounds|
    && CacheOf(d) == if e.decoded < 0 then was.cache else Cache(Slot(was.taken + e.decoded), sounds[e.decoded])
  }

  /** The decode step brings the sound of packet i, and leaves the later ones to be decoded. */
  method Decode(d: Lc3Data, decode: Packet -> seq<int>, ghost q: seq<Packet>, ghost sounds: seq<seq<int>>, ghost i: nat,
                ghost first: nat, ghost live: bool, ghost was: Before, ghost decoded: int)
    requires Holds(d, sounds, was, Remains(i, decoded))
    requires Ready(d, decode, q, i) && i < |q| && Tuned(d, decode, q, sounds, i, first, live) && (live || i == first)
    modifies d`pcmBufferIndex, d`pcmBufferSamples, d`decoded
    ensures Ready(d, decode, q, i) && Tuned(d, decode, q, sounds, i, first, true) && d.pcmBufferSamples == sounds[i]
    ensures Holds(d, sounds, was, Remains(i, i))
  {
    assert Gives(d, decode, q, sounds, i, i) && d.Head() == q[i];
    ghost var taken := d.taken;
    DecodeHead(d, decode);
    forall k | i <= k < |q| ensures Gives(d, decode, q, sounds, i, k) {
      if k > i && Slot(taken + (k - i)) == d.pcmBufferIndex {
        SlotInjective(taken, taken + (k - i));
      }
    }
  }

  /** Dropping a packet that was played or found stale. */
  method Skip(d: Lc3Data, decode: Packet -> seq<int>, ghost q: seq<Packet>, ghost sounds: seq<seq<int>>, ghost i: nat,
              ghost first: nat, ghost live: bool, ghost was: Before, ghost decoded: int)
    requires Holds(d, sounds, was, Remains(i, decoded))
    requires Ready(d, decode, q, i) && i < |q| && Tuned(d, decode, q, sounds, i, first, live) && (live || i < first)
    modifies d`readIndex, d`taken
    ensures Ready(d, decode, q, i + 1) && Tuned(d, decode, q, sounds, i + 1, first, live)
    ensures Holds(d, sounds, was, Remains(i + 1, decoded))
  {
    hide Ready, Slot;
    NextPacket(d, decode, q, i);
    ghost var j := i + 1;
    forall k | j <= k < |q| && (live || k == first) ensures Gives(d, decode, q, sounds, j, k) {
      assert old(Gives(d, decode, q, sounds, i, k));
    }
  }

  // ----- writing the buffer

  ghost function Value(sounds: seq<seq<int>>, cell: Cell): int {
    if cell.Sample? && cell.packet < |sounds| && cell.index < |sounds[cell.packet]|
    then sounds[cell.packet][cell.index] else 0
  }

  method WriteSilence(buffer: array2<int>, channel: nat, w: nat, count: nat)
    requires channel < buffer.Length1 && w + count <= buffer.Length0
    modifies buffer
    ensures forall p, c :: 0 <= p < buffer.Length0 && 0 <= c < buffer.Length1 && (c != channel || p < w) ==>
              buffer[p, c] == old(buffer[p, c])
    ensures forall p :: w <= p < w + count ==> buffer[p, channel] == 0
  {
    for i := 0 to count
      invariant forall p, c :: 0 <= p < buffer.Length0 && 0 <= c < buffer.Length1 && (c != channel || p < w) ==>
                  buffer[p, c] == old(buffer[p, c])
      invariant forall p :: w <= p < w + i ==> buffer[p, channel] == 0
    {
      buffer[w + i, channel] := 0;
    }
  }

  method CopySamples(buffer: array2<int>, channel: nat, w: nat, count: nat, samples: seq<int>, index: nat)
    requires channel < buffer.Length1 && w + count <= buffer.Length0 && index + count <= |samples|
    modifies buffer
    ensures forall p, c :: 0 <= p < buffer.Length0 && 0 <= c < buffer.Length1 && (c != channel || p < w) ==>
              buffer[p, c] == old(buffer[p, c])
    ensures forall p :: w <= p < w + count ==> buffer[p, channel] == samples[index + p - w]
  {
    var sampleIndex := index;
    for i := 0 to count
      invariant sampleIndex == index + i
      invariant forall p, c :: 0 <= p < buffer.Length0 && 0 <= c < buffer.Length1 && (c != channel || p < w) ==>
                  buffer[p, c] == old(buffer[p, c])
      invariant forall p :: w <= p < w + i ==> buffer[p, channel] == samples[index + p - w]
    {
      buffer[w + i, channel] := samples[sampleIndex];
      sampleIndex := sampleIndex + 1;
    }
  }

  /** The first `w` positions of a channel are as planned, if the plan fills the buffer. */
  ghost predicate Written(buffer: array2<int>, channel: nat, w: nat, all: Outcome, sounds: seq<seq<int>>)
    reads buffer
  {
    && channel < buffer.Length1 && w <= buffer.Length0 && (all.Done? ==> |all.cells| == buffer.Length0)
    && (all.Done? ==> forall p :: 0 <= p < w ==> buffer[p, channel] == Value(sounds, all.cells[p]))
  }

  /** playback_start_time_us and num_samples_for_channel. */
  datatype Progress = Progress(startTimeUs: uint32, owed: nat)

  /** Loop state of one channel, apart from the buffer and the ring. */
  ghost predicate Playing(r: Request, base: nat, q: seq<Packet>, all: Outcome, i: nat, progress: Progress) {
    && Timed(r, base, q) && InEpoch(base, progress.startTimeUs)
    && At(r, Windows(q), all, i, progress.startTimeUs, progress.owed)
  }

  /** The callback goes on from here to leave behind `whole`. */
  ghost predicate Leaving(r: Request, q: seq<Packet>, i: nat, progress: Progress, decoded: int, whole: Remains) {
    i <= |q| && Left(r, Windows(q), i, progress.startTimeUs, progress.owed, decoded) == whole
  }

  lemma {:induction false} LeavingStale(r: Request, q: seq<Packet>, i: nat, progress: Progress, decoded: int,
                                        whole: Remains)
    requires Leaving(r, q, i, progress, decoded, whole)
    requires i < |q| && progress.owed > 0 && WindowOf(q[i]).End() <= progress.startTimeUs
    ensures Leaving(r, q, i + 1, progress, decoded, whole)
  {
    LeftStale(r, Windows(q), i, progress.startTimeUs, progress.owed, decoded);
    hide Left;
  }

  lemma {:induction false} LeavingHeld(r: Request, q: seq<Packet>, i: nat, progress: Progress, decoded: int,
                                       whole: Remains)
    requires Leaving(r, q, i, progress, decoded, whole) && i < |q| && progress.owed > 0
    requires progress.startTimeUs < WindowOf(q[i]).End() && r.end < q[i].startTimeUs
    ensures whole == Remains(i, i)
  {
    LeftHeld(r, Windows(q), i, progress.startTimeUs, progress.owed, decoded);
    hide Left;
  }

  lemma {:induction false} LeavingNow(r: Request, q: seq<Packet>, i: nat, progress: Progress, decoded: int,
                                      whole: Remains)
    requires Leaving(r, q, i, progress, decoded, whole) && (progress.owed == 0 || i == |q|)
    ensures whole == Remains(i, decoded)
  {
  }

  /** The silence before a packet, in the plan. */
  lemma {:induction false} GapPlanned(r: Request, base: nat, q: seq<Packet>, all: Outcome, i: nat, progress: Progress,
                                      decoded: int, whole: Remains, silent: nat)
    requires Playing(r, base, q, all, i, progress) && Leaving(r, q, i, progress, decoded, whole)
    requires i < |q| && progress.owed > 0 && progress.startTimeUs < q[i].startTimeUs <= r.end
    requires silent == CodeSamples(q[i].startTimeUs - progress.startTimeUs, r.fs)
    ensures if silent > progress.owed then all == Overrun
            else
              var next := Progress(q[i].startTimeUs, progress.owed - silent);
              && Playing(r, base, q, all, i, next) && Leaving(r, q, i, next, i, whole) && progress.owed <= r.n
              && (all.Done? ==> |all.cells| == r.n && forall p :: r.n - progress.owed <= p < r.n - next.owed ==>
                                  all.cells[p] == Silence)
  {
    AtGap(r, Windows(q), all, i, progress.startTimeUs, progress.owed, silent);
    hide Plan, Left, CodeSamples;
    if silent <= progress.owed {
      LeftGap(r, Windows(q), i, progress.startTimeUs, progress.owed, decoded, silent);
    }
  }

  /** The samples of a packet, in the plan. */
  lemma {:induction false} PartPlanned(r: Request, base: nat, q: seq<Packet>, all: Outcome, i: nat, progress: Progress,
                                       decoded: int, whole: Remains, index: nat)
    requires Playing(r, base, q, all, i, progress) && Leaving(r, q, i, progress, decoded, whole)
    requires i < |q| && progress.owed > 0
    requires q[i].startTimeUs <= progress.startTimeUs < WindowOf(q[i]).End() && q[i].startTimeUs <= r.end
    requires index == CodeSamples(progress.startTimeUs - q[i].startTimeUs, r.fs)
    ensures if index > r.samplesPerFrame then all == BadIndex
            else
              var count := Min(r.samplesPerFrame - index, progress.owed);
              var next := Progress(WindowOf(q[i]).End(), progress.owed - count);
              var j := if count < progress.owed then i + 1 else i;
              && Playing(r, base, q, all, j, next) && Leaving(r, q, j, next, i, whole) && progress.owed <= r.n
              && (all.Done? ==> |all.cells| == r.n && forall p :: r.n - progress.owed <= p < r.n - next.owed ==>
                                  all.cells[p] == Sample(i, index + p - (r.n - progress.owed)))
  {
    AtCopy(r, Windows(q), all, i, progress.startTimeUs, progress.owed, index);
    hide Plan, Left, CodeSamples;
    if index <= r.samplesPerFrame {
      LeftCopy(r, Windows(q), i, progress.startTimeUs, progress.owed, decoded, index);
    }
  }

  /** Silence up to a packet that starts before the end time. `ok` is false if it exceeds the buffer. */
  method PlayGap(packet: Packet, fs: nat, buffer: array2<int>, channel: nat, progress: Progress, startOffsetUs: int,
                 ghost r: Request, ghost base: nat, ghost q: seq<Packet>, ghost all: Outcome, ghost i: nat,
                 ghost sounds: seq<seq<int>>, ghost decoded: int, ghost whole: Remains)
    returns (ok: bool, next: Progress)
    requires Leaving(r, q, i, progress, decoded, whole)
    requires Playing(r, base, q, all, i, progress) && i < |q| && progress.owed > 0 && packet == q[i]
    requires progress.startTimeUs < packet.startTimeUs <= r.end && r.fs == fs && r.n == buffer.Length0
    requires startOffsetUs == progress.startTimeUs - packet.startTimeUs
    requires Written(buffer, channel, r.n - progress.owed, all, sounds)
    modifies buffer
    ensures forall p, c :: 0 <= p < buffer.Length0 && 0 <= c < buffer.Length1 && c != channel ==>
              buffer[p, c] == old(buffer[p, c])
    ensures if ok then
              && Playing(r, base, q, all, i, next) && next.owed <= progress.owed
              && next.startTimeUs == packet.startTimeUs && Leaving(r, q, i, next, i, whole)
              && Written(buffer, channel, r.n - next.owed, all, sounds)
            else all == Overrun
  {
    GapPlanned(r, base, q, all, i, progress, decoded, whole, CodeSamples(-startOffsetUs, fs));
    hide Playing, Leaving;
    var silentSamples := U16(U32(-startOffsetUs * fs) / US_PER_S);
    assert silentSamples == CodeSamples(-startOffsetUs, fs);
    hide CodeSamples, U16, U32;
    if silentSamples > progress.owed {
      return false, progress;
    }
    if silentSamples > 0 {
      WriteSilence(buffer, channel, buffer.Length0 - progress.owed, silentSamples);
    }
    ok, next := true, Progress(packet.startTimeUs, progress.owed - silentSamples);
  }

  /** The samples of a packet that has started and not ended. `ok` is false if the assertion on the index fails. */
  method PlayPart(packet: Packet, pcm: seq<int>, fs: nat, samplesPerFrame: nat, buffer: array2<int>, channel: nat,
                  progress: Progress, startOffsetUs: nat, packetEndTimeUs: uint32,
                  ghost r: Request, ghost base: nat, ghost q: seq<Packet>, ghost all: Outcome, ghost i: nat,
                  ghost sounds: seq<seq<int>>, ghost decoded: int, ghost whole: Remains)
    returns (ok: bool, next: Progress)
    requires Leaving(r, q, i, progress, decoded, whole)
    requires Playing(r, base, q, all, i, progress) && i < |q| == |sounds| && progress.owed > 0 && packet == q[i]
    requires packet.startTimeUs <= progress.startTimeUs < packetEndTimeUs == WindowOf(packet).End()
    requires packet.startTimeUs <= r.end && pcm == sounds[i] && |pcm| == samplesPerFrame == r.samplesPerFrame
    requires startOffsetUs == progress.startTimeUs - packet.startTimeUs && r.fs == fs && r.n == buffer.Length0
    requires Written(buffer, channel, r.n - progress.owed, all, sounds)
    modifies buffer
    ensures forall p, c :: 0 <= p < buffer.Length0 && 0 <= c < buffer.Length1 && c != channel ==>
              buffer[p, c] == old(buffer[p, c])
    ensures if ok then
              && next.owed <= progress.owed && packet.startTimeUs <= next.startTimeUs == packetEndTimeUs
              && Playing(r, base, q, all, if next.owed > 0 then i + 1 else i, next)
              && Leaving(r, q, if next.owed > 0 then i + 1 else i, next, i, whole)
              && Written(buffer, channel, r.n - next.owed, all, sounds)
            else all == BadIndex
  {
    PartPlanned(r, base, q, all, i, progress, decoded, whole, CodeSamples(startOffsetUs, fs));
    hide Playing, Leaving;
    var sampleIndex := U16(U32(startOffsetUs * fs) / US_PER_S);
    assert sampleIndex == CodeSamples(startOffsetUs, fs);
    hide CodeSamples, U16, U32;
    if sampleIndex > samplesPerFrame {
      return false, progress;
    }
    var samplesToCopy := Min(samplesPerFrame - sampleIndex, progress.owed);
    CopySamples(buffer, channel, buffer.Length0 - progress.owed, samplesToCopy, pcm, sampleIndex);
    ok, next := true, Progress(packetEndTimeUs, progress.owed - samplesToCopy);
  }

  /** What the times of the oldest packet mean. */
  lemma {:induction false} HeadTimes(r: Request, base: nat, q: seq<Packet>, all: Outcome, i: nat, progress: Progress)
    requires Playing(r, base, q, all, i, progress) && i < |q|
    ensures var end := U32(q[i].startTimeUs + q[i].durationUs);
            && end == WindowOf(q[i]).End()
            && (TimeDelta(progress.startTimeUs, end) >= 0 <==> end <= progress.startTimeUs)
            && TimeDelta(progress.startTimeUs, q[i].startTimeUs) == progress.startTimeUs - q[i].startTimeUs
  {
    hide At;
    DeltaExact(base, progress.startTimeUs, U32(q[i].startTimeUs + q[i].durationUs));
    DeltaExact(base, progress.startTimeUs, q[i].startTimeUs);
  }

  lemma {:induction false} SkipStale(r: Request, base: nat, q: seq<Packet>, all: Outcome, i: nat, progress: Progress)
    requires Playing(r, base, q, all, i, progress) && i < |q| && progress.owed > 0
    requires WindowOf(q[i]).End() <= progress.startTimeUs
    ensures Playing(r, base, q, all, i + 1, progress)
  {
    AtStale(r, Windows(q), all, i, progress.startTimeUs, progress.owed);
    hide At;
  }

  /** A packet is dropped before anything was decoded only if it is not the first live one, and decoded first only if
      it is. */
  lemma {:induction false} LiveOrStale(q: seq<Packet>, t0: int, i: nat)
    requires i <= FirstLive(q, t0, 0) && i < |q|
    ensures WindowOf(q[i]).End() <= t0 <==> i < FirstLive(q, t0, 0)
  {
    hide WindowOf;
  }

  lemma {:induction false} Queued(d: Lc3Data, decode: Packet -> seq<int>, q: seq<Packet>, i: nat)
    requires Ready(d, decode, q, i)
    ensures d.Valid() && i <= |q| && (d.Empty() <==> i == |q|) && (i < |q| ==> d.Head() == q[i])
  {
  }

  /** One round of the playback loop on the oldest packet: drop it if stale, stop if it is not due yet, otherwise play
      silence or samples. `j` is the next packet. */
  method PlayHead(d: Lc3Data, decode: Packet -> seq<int>, fs: nat, samplesPerFrame: nat, buffer: array2<int>,
                  channel: nat, playbackEndTimeUs: uint32, progress: Progress,
                  ghost r: Request, ghost base: nat, ghost q: seq<Packet>, ghost all: Outcome, ghost i: nat,
                  ghost sounds: seq<seq<int>>, ghost live: bool, ghost was: Before, ghost decoded: int,
                  ghost whole: Remains)
    returns (ok: bool, next: Progress, stop: bool, ghost j: nat, ghost alive: bool, ghost last: int)
    requires Leaving(r, q, i, progress, decoded, whole) && Holds(d, sounds, was, Remains(i, decoded))
    requires Ready(d, decode, q, i) && i < |q| && progress.owed > 0 && Playing(r, base, q, all, i, progress)
    requires Tuned(d, decode, q, sounds, i, FirstLive(q, r.t0, 0), live) && (live || progress.startTimeUs == r.t0)
    requires |sounds| == |q| && forall k :: 0 <= k < |q| ==> |sounds[k]| == samplesPerFrame
    requires r.fs == fs && r.samplesPerFrame == samplesPerFrame && r.n == buffer.Length0 && r.end == playbackEndTimeUs
    requires progress.owed <= r.n && Written(buffer, channel, r.n - progress.owed, all, sounds)
    modifies d`readIndex, d`taken, d`pcmBufferIndex, d`pcmBufferSamples, d`decoded, buffer
    ensures d.Valid() && CacheValid(d, decode)
    ensures forall p, c :: 0 <= p < buffer.Length0 && 0 <= c < buffer.Length1 && c != channel ==>
              buffer[p, c] == old(buffer[p, c])
    ensures if ok then
              && Ready(d, decode, q, j) && i <= j <= |q| && Playing(r, base, q, all, j, next) && next.owed <= r.n
              && Tuned(d, decode, q, sounds, j, FirstLive(q, r.t0, 0), alive) && (alive || next.startTimeUs == r.t0)
              && Written(buffer, channel, r.n - next.owed, all, sounds)
              && (stop || Leaving(r, q, j, next, last, whole)) && Holds(d, sounds, was, Remains(j, last))
              && (stop ==> next == progress && j == i && whole == Remains(j, last) &&
                           next.startTimeUs < WindowOf(q[i]).End() && r.end < q[i].startTimeUs)
              && (stop || i < j || (q[i].startTimeUs <= next.startTimeUs &&
                                    (progress.startTimeUs < q[i].startTimeUs || next.owed < progress.owed)))
            else all == Overrun || all == BadIndex
  {
    hide *;
    Queued(d, decode, q, i);
    HeadTimes(r, base, q, all, i, progress);
    ok, next, stop, j, alive, last := true, progress, false, i, live, decoded;
    var packet := d.Head();
    var packetEndTimeUs := U32(packet.startTimeUs + packet.durationUs);
    if !live {
      TunedBefore(d, decode, q, sounds, i, FirstLive(q, r.t0, 0));
      LiveOrStale(q, r.t0, i);
    }
    if TimeDelta(progress.startTimeUs, packetEndTimeUs) >= 0 {
      SkipStale(r, base, q, all, i, progress);
      LeavingStale(r, q, i, progress, decoded, whole);
      Skip(d, decode, q, sounds, i, FirstLive(q, r.t0, 0), live, was, decoded);
      j := i + 1;
      Honest(d, decode, q, j);
      return;
    }
    Decode(d, decode, q, sounds, i, FirstLive(q, r.t0, 0), live, was, decoded);
    alive, last := true, i;
    Honest(d, decode, q, i);
    if playbackEndTimeUs < packet.startTimeUs {
      LeavingHeld(r, q, i, progress, decoded, whole);
      stop := true;
      return;
    }
    var startOffsetUs := TimeDelta(progress.startTimeUs, packet.startTimeUs);
    if startOffsetUs < 0 {
      ok, next := PlayGap(packet, fs, buffer, channel, progress, startOffsetUs, r, base, q, all, i, sounds,
                          decoded, whole);
    } else {
      ok, next := PlayPart(packet, d.pcmBufferSamples, fs, samplesPerFrame, buffer, channel, progress, startOffsetUs,
                           packetEndTimeUs, r, base, q, all, i, sounds, decoded, whole);
      if ok && next.owed > 0 {
        Skip(d, decode, q, sounds, i, FirstLive(q, r.t0, 0), true, was, i);
        j := i + 1;
        Honest(d, decode, q, j);
      }
    }
  }

  lemma {:induction false} Honest(d: Lc3Data, decode: Packet -> seq<int>, q: seq<Packet>, i: nat)
    requires Ready(d, decode, q, i)
    ensures d.Valid() && CacheValid(d, decode) && i <= |q|
  {
  }

  lemma {:induction false} TunedBefore(d: Lc3Data, decode: Packet -> seq<int>, q: seq<Packet>,
                                       sounds: seq<seq<int>>, i: nat, first: nat)
    requires Tuned(d, decode, q, sounds, i, first, false)
    ensures i <= first
  {
  }

  lemma {:induction false} Begin(d: Lc3Data, decode: Packet -> seq<int>, r: Request, base: nat, q: seq<Packet>,
                                 buffer: array2<int>, channel: nat)
    requires Ready(d, decode, q, 0) && Timed(r, base, q) && r.n == buffer.Length0 && channel < buffer.Length1
    requires 0 <= r.t0 < 0x1_0000_0000 && forall p :: |decode(p)| == r.samplesPerFrame
    ensures var all, sounds := AccuratePlan.Playback(r, Windows(q)), Heard(d, decode, q, r.t0);
            && Playing(r, base, q, all, 0, Progress(r.t0, r.n))
            && Tuned(d, decode, q, sounds, 0, FirstLive(q, r.t0, 0), false)
            && Written(buffer, channel, 0, all, sounds)
            && |sounds| == |q| && forall k :: 0 <= k < |q| ==> |sounds[k]| == r.samplesPerFrame
  {
    AtStart(r, Windows(q));
    hide At, Plan, FirstLive, Lc3Data.Queue;
    assert CacheValid(d, decode) && forall n: nat :: Slot(n) < MAX_NUM_LC3_FRAMES;
  }

  lemma {:induction false} Nothing(d: Lc3Data, sounds: seq<seq<int>>, r: Request, q: seq<Packet>, progress: Progress)
    requires progress.startTimeUs == r.t0 && progress.owed == r.n
    ensures Holds(d, sounds, StateOf(d), Remains(0, -1)) && Leaving(r, q, 0, progress, -1, LeftBy(r, Windows(q)))
  {
    hide Left, Windows;
  }

  lemma {:induction false} NothingDue(r: Request, base: nat, q: seq<Packet>, all: Outcome, i: nat, progress: Progress)
    requires Playing(r, base, q, all, i, progress) && progress.owed > 0
    requires i == |q| || (progress.startTimeUs < WindowOf(q[i]).End() && r.end < q[i].startTimeUs)
    ensures all.Done? && |all.cells| == r.n && forall p :: r.n - progress.owed <= p < r.n ==> all.cells[p] == Silence
  {
    AtEnd(r, Windows(q), all, i, progress.startTimeUs, progress.owed);
    hide Plan;
  }

  lemma {:induction false} Filled(r: Request, base: nat, q: seq<Packet>, all: Outcome, i: nat, progress: Progress)
    requires Playing(r, base, q, all, i, progress) && progress.owed == 0
    ensures all.Done?
  {
  }

  method Tail(buffer: array2<int>, channel: nat, owed: nat, ghost all: Outcome, ghost sounds: seq<seq<int>>)
    requires owed <= buffer.Length0 && Written(buffer, channel, buffer.Length0 - owed, all, sounds)
    requires all.Done? && forall p :: buffer.Length0 - owed <= p < buffer.Length0 ==> all.cells[p] == Silence
    modifies buffer
    ensures Written(buffer, channel, buffer.Length0, all, sounds)
    ensures forall p, c :: 0 <= p < buffer.Length0 && 0 <= c < buffer.Length1 && c != channel ==>
              buffer[p, c] == old(buffer[p, c])
  {
    WriteSilence(buffer, channel, buffer.Length0 - owed, owed);
  }

  /** The playback loop of one channel and the silence behind it. `ok` is false if the plan overruns the buffer or fails
      the assertion on the sample index. */
  method PlayAll(d: Lc3Data, decode: Packet -> seq<int>, fs: nat, samplesPerFrame: nat,
                 buffer: array2<int>, channel: nat, timestamp: uint32, playbackEndTimeUs: uint32,
                 ghost r: Request, ghost base: nat, ghost q: seq<Packet>)
    returns (ok: bool)
    requires r == Request(fs, samplesPerFrame, timestamp, buffer.Length0, playbackEndTimeUs)
    requires Ready(d, decode, q, 0) && Timed(r, base, q) && channel < buffer.Length1
    requires forall p :: |decode(p)| == samplesPerFrame
    modifies d`readIndex, d`taken, d`pcmBufferIndex, d`pcmBufferSamples, d`decoded, buffer
    ensures d.Valid() && CacheValid(d, decode)
    ensures forall p, c :: 0 <= p < buffer.Length0 && 0 <= c < buffer.Length1 && c != channel ==>
              buffer[p, c] == old(buffer[p, c])
    ensures var all := AccuratePlan.Playback(r, Windows(q));
            ok == all.Done? && (ok ==> Written(buffer, channel, r.n, all, old(Heard(d, decode, q, r.t0))))
    ensures ok ==> var e := LeftBy(r, Windows(q));
                   Ready(d, decode, q, e.next) && Holds(d, old(Heard(d, decode, q, r.t0)), old(StateOf(d)), e)
  {
    hide *;
    ghost var all, sounds := AccuratePlan.Playback(r, Windows(q)), Heard(d, decode, q, r.t0);
    Begin(d, decode, r, base, q, buffer, channel);
    Honest(d, decode, q, 0);
    Queued(d, decode, q, 0);
    var progress := Progress(timestamp, buffer.Length0);
    ghost var was, whole := StateOf(d), LeftBy(r, Windows(q));
    ghost var i: nat, live, decoded: int := 0, false, -1;
    Nothing(d, sounds, r, q, progress);
    while progress.owed > 0 && !d.Empty()
      invariant Ready(d, decode, q, i) && d.Valid() && CacheValid(d, decode) && i <= |q| && progress.owed <= r.n
      invariant Playing(r, base, q, all, i, progress) && Written(buffer, channel, r.n - progress.owed, all, sounds)
      invariant Tuned(d, decode, q, sounds, i, FirstLive(q, r.t0, 0), live)
      invariant live || progress.startTimeUs == r.t0
      invariant Leaving(r, q, i, progress, decoded, whole) && Holds(d, sounds, was, Remains(i, decoded))
      invariant forall p, c :: 0 <= p < buffer.Length0 && 0 <= c < buffer.Length1 && c != channel ==>
                  buffer[p, c] == old(buffer[p, c])
      decreases |q| - i, if i < |q| && progress.startTimeUs < q[i].startTimeUs then 1 else 0, progress.owed
    {
      Queued(d, decode, q, i);
      var stop;
      ok, progress, stop, i, live, decoded := PlayHead(d, decode, fs, samplesPerFrame, buffer, channel,
                                                       playbackEndTimeUs, progress, r, base, q, all, i, sounds,
                                                       live, was, decoded, whole);
      if !ok {
        return;
      }
      Queued(d, decode, q, i);
      if stop {
        break;
      }
    }
    Queued(d, decode, q, i);
    if progress.owed == 0 || i == |q| {
      LeavingNow(r, q, i, progress, decoded, whole);
    }
    ok := true;
    if progress.owed > 0 {
      NothingDue(r, base, q, all, i, progress);
      Tail(buffer, channel, progress.owed, all, sounds);
    } else {
      Filled(r, base, q, all, i, progress);
    }
  }

  /** What the buffer holds for one channel. */
  ghost function Column(buffer: array2<int>, channel: nat): (v: seq<int>)
    requires channel < buffer.Length1
    reads buffer
    ensures |v| == buffer.Length0 && forall p :: 0 <= p < |v| ==> v[p] == buffer[p, channel]
  {
    seq(buffer.Length0, p requires 0 <= p < buffer.Length0 reads buffer => buffer[p, channel])
  }

  /** The values a plan puts into the buffer. */
  ghost function Values(sounds: seq<seq<int>>, cells: seq<Cell>): (v: seq<int>)
    ensures |v| == |cells| && forall p :: 0 <= p < |v| ==> v[p] == Value(sounds, cells[p])
  {
    seq(|cells|, p requires 0 <= p < |cells| => Value(sounds, cells[p]))
  }

  /** Every planned sample of packet f sounds in the cached packet as in its own. */
  ghost predicate SameSound(cached: seq<int>, own: seq<int>, cells: seq<Cell>, f: nat) {
    forall p :: 0 <= p < |cells| && cells[p].Sample? && cells[p].packet == f ==>
      var x := cells[p].index;
      x < Min(|cached|, |own|) ==> cached[x] == own[x]
  }

  /** The planned cells get the values they were sent with if and only if the first live packet is not in the slot of
      the cache, or the samples of it that are played are the cached ones. */
  lemma {:induction false} PlayedRight(d: Lc3Data, decode: Packet -> seq<int>, q: seq<Packet>, t0: int,
                                       cells: seq<Cell>, samplesPerFrame: nat)
    requires Ready(d, decode, q, 0) && forall p :: |decode(p)| == samplesPerFrame
    ensures var f := FirstLive(q, t0, 0);
            Values(Heard(d, decode, q, t0), cells) == Values(Decoded(decode, q), cells) <==>
            (f < |q| && d.pcmBufferIndex == Slot(d.taken + f) ==>
               SameSound(d.pcmBufferSamples, decode(q[f]), cells, f))
  {
    hide *;
    var f, heard, own := FirstLive(q, t0, 0), Heard(d, decode, q, t0), Decoded(decode, q);
    CachedSound(d, decode, q, t0);
    if f < |q| && d.pcmBufferIndex == Slot(d.taken + f) {
      DifferIn(heard, own, cells, f);
    }
  }

  /** Sounds that differ in one packet only give the same values if and only if its planned samples agree. */
  lemma {:induction false} DifferIn(heard: seq<seq<int>>, own: seq<seq<int>>, cells: seq<Cell>, f: nat)
    requires f < |heard| == |own| && |heard[f]| == |own[f]|
    requires forall k :: 0 <= k < |own| && k != f ==> heard[k] == own[k]
    ensures Values(heard, cells) == Values(own, cells) <==> SameSound(heard[f], own[f], cells, f)
  {
    var v, w := Values(heard, cells), Values(own, cells);
    if SameSound(heard[f], own[f], cells, f) {
      assert forall p :: 0 <= p < |cells| ==> v[p] == w[p];
    } else {
      var p :| 0 <= p < |cells| && cells[p].Sample? && cells[p].packet == f && cells[p].index < |own[f]| &&
               heard[f][cells[p].index] != own[f][cells[p].index];
      assert v[p] != w[p];
    }
  }

  /** The channel holds the plan of the queue, with these sounds of its packets. */
  ghost predicate Correct(buffer: array2<int>, channel: nat, r: Request, q: seq<Packet>, sounds: seq<seq<int>>)
    reads buffer
  {
    && channel < buffer.Length1 && AccuratePlan.Playback(r, Windows(q)).Done?
    && Column(buffer, channel) == Values(sounds, AccuratePlan.Playback(r, Windows(q)).cells)
  }

  /** What a callback leaves behind: the packets of the queue that are neither stale nor played to their end with
      samples still owed, and in the cache the packet it decoded last. */
  ghost predicate Leaves(d: Lc3Data, decode: Packet -> seq<int>, r: Request, q: seq<Packet>, sounds: seq<seq<int>>,
                         was: Before)
    reads d, d.packets
  {
    var e := LeftBy(r, Windows(q));
    Ready(d, decode, q, e.next) && Holds(d, sounds, was, e)
  }

  /** le_audio_connection_sink_playback for one channel, for every queue and every end time: it fills the buffer exactly
      if the plan does; then every position has the planned value and the ring holds what is left. Other channels are
      left alone. */
  method PlayChannel(d: Lc3Data, decode: Packet -> seq<int>, fs: nat, samplesPerFrame: nat,
                     buffer: array2<int>, channel: nat, timestamp: uint32, playbackEndTimeUs: uint32,
                     ghost r: Request, ghost base: nat, ghost q: seq<Packet>)
    returns (ok: bool)
    requires r == Request(fs, samplesPerFrame, timestamp, buffer.Length0, playbackEndTimeUs)
    requires Ready(d, decode, q, 0) && Timed(r, base, q) && channel < buffer.Length1
    requires forall p :: |decode(p)| == samplesPerFrame
    modifies d`readIndex, d`taken, d`pcmBufferIndex, d`pcmBufferSamples, d`decoded, buffer
    ensures d.Valid() && CacheValid(d, decode)
    ensures ok == AccuratePlan.Playback(r, Windows(q)).Done?
    ensures ok ==> Correct(buffer, channel, r, q, old(Heard(d, decode, q, r.t0)))
    ensures ok ==> Leaves(d, decode, r, q, old(Heard(d, decode, q, r.t0)), old(StateOf(d)))
    ensures forall k: nat :: k < buffer.Length1 && k != channel ==> Column(buffer, k) == old(Column(buffer, k))
  {
    hide AccuratePlan.Playback, Timed, CacheValid, Ready, Windows, Lc3Data.Valid, Heard, Value, LeftBy, Holds;
    ok := PlayAll(d, decode, fs, samplesPerFrame, buffer, channel, timestamp, playbackEndTimeUs, r, base, q);
  }

  /** All channels, and the buffer duration that is cached to avoid a division. */
  class AccurateSink {
    const decode: Packet -> seq<int>
    const channels: seq<Lc3Data>
    var fs: nat
    var samplesPerFrame: nat
    var bufferPlaybackTimeUs: nat
    var cachedNumSamples: nat
    ghost var cachedAt: nat   // sampling frequency when the duration was computed

    constructor (decode: Packet -> seq<int>, channels: seq<Lc3Data>, fs: nat, samplesPerFrame: nat)
      requires fs > 0
      ensures this.decode == decode && this.channels == channels && this.fs == cachedAt == fs && Valid()
    {
      this.decode, this.channels, this.fs, this.samplesPerFrame := decode, channels, fs, samplesPerFrame;
      bufferPlaybackTimeUs, cachedNumSamples, cachedAt := 0, 0, fs;
    }

    /** The cached duration belongs to the cached size, at the sampling frequency of that time. */
    ghost predicate Valid()
      reads this
    {
      fs > 0 && cachedAt > 0 && bufferPlaybackTimeUs == Duration(cachedNumSamples, cachedAt)
    }

    /** The part of configuring again that matters here: it leaves the cache alone. */
    method Reconfigure(fs: nat, samplesPerFrame: nat)
      requires Valid() && fs > 0
      modifies this`fs, this`samplesPerFrame
      ensures Valid() && this.fs == fs && this.samplesPerFrame == samplesPerFrame
    {
      this.fs := fs;
      this.samplesPerFrame := samplesPerFrame;
    }

    /** The duration a callback of that size works with. */
    ghost function CallbackDuration(numSamples: nat): nat
      requires Valid()
      reads this
    {
      if numSamples == cachedNumSamples then Duration(numSamples, cachedAt) else Duration(numSamples, fs)
    }

    /** A duration that is cached for the number of samples is used, whatever frequency it was computed for. */
    method PlaybackEnd(numSamples: nat, timestamp: uint32) returns (playbackEndTimeUs: uint32)
      requires Valid()
      modifies this`bufferPlaybackTimeUs, this`cachedNumSamples, this`cachedAt
      ensures Valid() && playbackEndTimeUs == U32(timestamp + old(CallbackDuration(numSamples)))
      ensures cachedNumSamples == numSamples
      ensures cachedAt == if numSamples == old(cachedNumSamples) then old(cachedAt) else fs
    {
      hide Duration;
      if numSamples != cachedNumSamples {
        bufferPlaybackTimeUs := Duration(numSamples, fs);
        cachedNumSamples := numSamples;
        cachedAt := fs;
      }
      playbackEndTimeUs := U32(timestamp + bufferPlaybackTimeUs);
    }

    /** le_audio_connection_sink_playback: every channel plays the plan of its queue with the end time in use, or
        the first channel whose plan does not fill the buffer stops the run. `queues` names the packets queued when
        the callback starts, `sounds` what the caches make of them, `states` the read indices and caches then. */
    method Playback(buffer: array2<int>, timestamp: uint32, ghost base: nat, ghost queues: seq<seq<Packet>>,
                    ghost sounds: seq<seq<seq<int>>>, ghost states: seq<Before>)
      returns (ok: bool, ghost r: Request)
      requires Valid() && buffer.Length1 == |channels| == |queues| == |sounds| == |states|
      requires forall p :: |decode(p)| == samplesPerFrame
      requires forall a, b :: 0 <= a < b < |channels| ==> channels[a] != channels[b]
      requires var end := timestamp + CallbackDuration(buffer.Length0);
               forall k :: 0 <= k < |channels| ==>
                 && Ready(channels[k], decode, queues[k], 0)
                 && sounds[k] == Heard(channels[k], decode, queues[k], timestamp)
                 && states[k] == StateOf(channels[k])
                 && Timed(Request(fs, samplesPerFrame, timestamp, buffer.Length0, end), base, queues[k])
      modifies this`bufferPlaybackTimeUs, this`cachedNumSamples, this`cachedAt, channels, buffer
      ensures Valid()
      ensures r == Request(fs, samplesPerFrame, timestamp, buffer.Length0,
                           timestamp + old(CallbackDuration(buffer.Length0)))
      ensures ok <==> forall k :: 0 <= k < |channels| ==> AccuratePlan.Playback(r, Windows(queues[k])).Done?
      ensures ok ==> forall k :: 0 <= k < |channels| ==>
                       && Correct(buffer, k, r, queues[k], sounds[k])
                       && Leaves(channels[k], decode, r, queues[k], sounds[k], states[k])
    {
      hide AccuratePlan.Playback, Plan, Heard, Values, Ready, Timed, CacheValid, Windows, Lc3Data.Valid, Duration, U32,
           LeftBy, Holds;
      r := Request(fs, samplesPerFrame, timestamp, buffer.Length0, timestamp + CallbackDuration(buffer.Length0));
      ok := true;
      var playbackEndTimeUs := PlaybackEnd(buffer.Length0, timestamp);
      for channel := 0 to |channels|
        invariant forall k :: channel <= k < |channels| ==>
                    && Ready(channels[k], decode, queues[k], 0)
                    && Heard(channels[k], decode, queues[k], timestamp) == sounds[k]
                    && StateOf(channels[k]) == states[k]
        invariant forall k :: 0 <= k < channel ==>
                    && Correct(buffer, k, r, queues[k], sounds[k])
                    && Leaves(channels[k], decode, r, queues[k], sounds[k], states[k])
        invariant Valid() && r.fs == fs && r.samplesPerFrame == samplesPerFrame
      {
        EndInEpoch(r, base, queues[channel]);
        ok := PlayChannel(channels[channel], decode, fs, samplesPerFrame, buffer, channel, timestamp,
                          playbackEndTimeUs, r, base, queues[channel]);
        if !ok {
          return;
        }
      }
    }
  }

  lemma {:induction false} EndInEpoch(r: Request, base: nat, q: seq<Packet>)
    requires Timed(r, base, q)
    ensures U32(r.end) == r.end
  {
  }
}
