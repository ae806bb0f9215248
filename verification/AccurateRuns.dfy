/** Accurate playback over several callbacks with packets stored in between: a packet that is cut by the end of a buffer
    goes on in the next one unless it is dropped meanwhile, and the decoded-frame cache can outlive its packet. */
module AccurateRuns {
  import opened Arith
  import opened ByteRing
  import opened Lc3Ring
  import opened AccuratePlan
  import opened AccurateTiming
  import opened AccuratePlayback

  const CAPACITY: nat := MAX_NUM_LC3_FRAMES - 1

  // ----- what the buffer holds

  /** At this position the buffer holds a sample of a packet, on time, or zero because nothing is due. */
  ghost predicate OnTime(value: int, r: Request, q: seq<Window>, sounds: seq<seq<int>>, cell: Cell, p: nat) {
    match cell
    case Silence => value == 0 && exists i :: Between(r, q, i, p)
    case Sample(k, x) =>
      && k < |q| == |sounds| && x < |sounds[k]| && value == sounds[k][x]
      && -US_PER_S < Error(r, q, k, x, p) <= (US_PER_S - 1) * Gaps(r, q, k + 1)
  }

  /** The values behind the timing theorems: every position of a filled channel. */
  lemma {:induction false} BufferOnTime(buffer: array2<int>, channel: nat, r: Request, q: seq<Packet>,
                                        sounds: seq<seq<int>>, p: nat)
    requires Correct(buffer, channel, r, q, sounds) && p < r.n == buffer.Length0 && |sounds| == |q|
    requires forall k :: 0 <= k < |q| ==> |sounds[k]| == r.samplesPerFrame
    requires r.Valid() && r.NotLate() && r.NotEarly() && r.Fits(Windows(q))
    ensures OnTime(buffer[p, channel], r, Windows(q), sounds, Playback(r, Windows(q)).cells[p], p)
  {
    TimeFaithful(r, Windows(q), p);
    SilenceJustified(r, Windows(q), p);
    hide Playback, Plan, Windows, Error, Gaps, Between;
    assert Column(buffer, channel)[p] == buffer[p, channel];
  }

  // ----- storing several packets

  /** The queue after the first n packets of `ps` were stored. */
  function EnqueueAll(q: seq<Packet>, ps: seq<Packet>, n: nat): seq<Packet>
    requires n <= |ps|
  {
    if n == 0 then q else Enqueue(EnqueueAll(q, ps, n - 1), ps[n - 1])
  }

  /** The most recent packets that fit. */
  function Recent(all: seq<Packet>): (q: seq<Packet>)
    ensures |q| == Min(|all|, CAPACITY)
  {
    if |all| > CAPACITY then all[|all| - CAPACITY..] else all
  }

  lemma {:induction false} RecentStep(all: seq<Packet>, p: Packet)
    ensures Enqueue(Recent(all), p) == Recent(all + [p])
  {
  }

  lemma {:induction false} EnqueuedAll(q: seq<Packet>, ps: seq<Packet>, n: nat)
    requires |q| <= CAPACITY && n <= |ps|
    ensures EnqueueAll(q, ps, n) == Recent(q + ps[..n])
  {
    hide Enqueue, Recent;
    if n == 0 {
      WithNothing(q, ps);
    } else {
      EnqueuedAll(q, ps, n - 1);
      RecentStep(q + ps[..n - 1], ps[n - 1]);
      assert q + ps[..n - 1] + [ps[n - 1]] == q + ps[..n];
    }
  }

  lemma {:induction false} EnqueuedFront(q: seq<Packet>, ps: seq<Packet>, p: Packet, n: nat)
    requires n <= |ps|
    ensures EnqueueAll(q, ps + [p], n) == EnqueueAll(q, ps, n)
  {
    hide Enqueue;
    if n > 0 {
      EnqueuedFront(q, ps, p, n - 1);
    }
  }

  lemma {:induction false} WithNothing(q: seq<Packet>, ps: seq<Packet>)
    requires |q| <= CAPACITY
    ensures Recent(q + ps[..0]) == q
  {
    assert q + ps[..0] == q;
  }

  // ----- a packet across two buffers

  /** The queue when the next callback starts: what this one leaves, and the packets stored since. */
  function NextQueue(r: Request, q: seq<Packet>, ps: seq<Packet>): seq<Packet> {
    EnqueueAll(q[LeftBy(r, Windows(q)).next..], ps, |ps|)
  }

  /** Packet k of q, whose sample x was the last one played, goes on in the first position of the next buffer: no sample
      is skipped, and at most one sample and one for each gap are repeated. */
  ghost predicate GoesOn(r: Request, q: seq<Packet>, next: Request, ring: seq<Packet>, k: nat, x: nat) {
    && k < |q| && next.n > 0 && Playback(next, Windows(ring)).Done?
    && var cell := Playback(next, Windows(ring)).cells[0];
       && cell.Sample? && cell.packet < |ring| && ring[cell.packet] == q[k]
       && x - Gaps(r, Windows(q), k + 1) <= cell.index <= x + 1
  }

  /** The part of `all` from number `from` on is the queue of the next callback. */
  ghost predicate Suffix(all: seq<Packet>, from: nat, ring: seq<Packet>) {
    from <= |all| && ring == all[from..]
  }

  lemma {:induction false} NextSuffix(r: Request, q: seq<Packet>, ps: seq<Packet>, k: nat, x: nat)
    requires |q| <= CAPACITY && r.n > 0
    requires Playback(r, Windows(q)).Done? && Playback(r, Windows(q)).cells[r.n - 1] == Sample(k, x)
    ensures k < |q|
    ensures Suffix(q + ps, k + Dropped(|q[k..]| + |ps|), NextQueue(r, q, ps))
  {
    hide Plan, Left, Enqueue, Windows;
    LastStays(r, Windows(q), 0, r.t0, r.n, -1);
    EnqueuedAll(q[k..], ps, |ps|);
    assert q[k..] + ps[..|ps|] == (q + ps)[k..];
  }

  function Dropped(n: nat): (d: nat)
    ensures d == 0 <==> n <= CAPACITY
  {
    if n > CAPACITY then n - CAPACITY else 0
  }

  lemma {:induction false} SuffixFits(r: Request, all: seq<Packet>, from: nat, ring: seq<Packet>)
    requires r.Fits(Windows(all)) && Suffix(all, from, ring)
    ensures r.Fits(Windows(ring))
  {
    var w, v := Windows(all), Windows(ring);
    assert forall i :: 0 <= i < |v| ==> v[i] == w[from + i];
    hide Product, Windows;
  }

  /** A packet in front of the suffix is not in it, because packets start one after the other. */
  lemma {:induction false} NotInSuffix(r: Request, all: seq<Packet>, from: nat, ring: seq<Packet>, k: nat)
    requires r.Fits(Windows(all)) && Suffix(all, from, ring) && k < from
    ensures all[k] !in ring
  {
    var w := Windows(all);
    hide Product;
    forall j | 0 <= j < |ring| ensures ring[j] != all[k] {
      assert w[k].End() <= w[from + j].start && 0 < w[k].duration;
    }
  }

  lemma {:induction false} FrontFits(r: Request, q: seq<Packet>, next: Request, ps: seq<Packet>)
    requires next.Fits(Windows(q + ps)) && next.fs == r.fs && next.samplesPerFrame == r.samplesPerFrame
    ensures r.Fits(Windows(q))
  {
    var w, v := Windows(q + ps), Windows(q);
    assert forall i :: 0 <= i < |v| ==> v[i] == w[i];
    hide Product, Windows;
  }

  lemma {:induction false} Gone(r: Request, q: seq<Packet>, next: Request, ring: seq<Packet>, k: nat, x: nat)
    requires k < |q| && q[k] !in ring
    ensures !GoesOn(r, q, next, ring, k, x)
  {
    hide Gaps, Plan, Windows;
  }

  lemma {:induction false} Continues(r: Request, q: seq<Packet>, next: Request, ps: seq<Packet>, ring: seq<Packet>,
                                     k: nat, x: nat)
    requires r.Valid() && r.fs <= US_PER_S && r.n > 0 && r.Fits(Windows(q)) && r.NotLate() && x + 1 < r.samplesPerFrame
    requires k < |q| && Faithful(r, Windows(q), Sample(k, x), r.n - 1) && Suffix(q + ps, k, ring)
    requires next.n > 0 && Playback(next, Windows(ring)).Done?
    requires next.fs == r.fs && next.samplesPerFrame == r.samplesPerFrame && next.t0 == r.End() <= next.end
    ensures GoesOn(r, q, next, ring, k, x)
  {
    hide Gaps, CodeSamples, Duration, Product, Plan, Faithful, Request.Fits, Request.NotLate, Request.Valid;
    ResumesAt(r, Windows(q), k, x);
    assert ring[0] == q[k] && Windows(ring)[0] == Windows(q)[k];
    FirstCell(next, Windows(ring), 0);
  }

  /** A packet that is cut by the end of a buffer goes on in the next buffer if and only if it was not dropped for the
      packets stored meanwhile, that is if those and the packets from it on fit into the ring. */
  lemma {:induction false} Seamless(r: Request, q: seq<Packet>, next: Request, ps: seq<Packet>, k: nat, x: nat)
    requires r.Valid() && r.fs <= US_PER_S && r.n > 0 && r.NotLate() && x + 1 < r.samplesPerFrame && |q| <= CAPACITY
    requires Playback(r, Windows(q)).Done? && Playback(r, Windows(q)).cells[r.n - 1] == Sample(k, x)
    requires next.Valid() && next.NotLate() && next.n > 0 && next.Fits(Windows(q + ps))
    requires next.fs == r.fs && next.samplesPerFrame == r.samplesPerFrame && next.t0 == r.End() <= next.end
    ensures k < |q| && Playback(next, Windows(NextQueue(r, q, ps))).Done?
    ensures GoesOn(r, q, next, NextQueue(r, q, ps), k, x) <==> |q[k..]| + |ps| <= CAPACITY
  {
    hide *;
    NextSuffix(r, q, ps, k, x);
    var ring, from := NextQueue(r, q, ps), k + Dropped(|q[k..]| + |ps|);
    FrontFits(r, q, next, ps);
    TimeFaithful(r, Windows(q), r.n - 1);
    SuffixFits(next, q + ps, from, ring);
    PlaybackDone(next, Windows(ring));
    if from == k {
      Continues(r, q, next, ps, ring, k, x);
    } else {
      NotInSuffix(next, q + ps, from, ring, k);
      assert (q + ps)[k] == q[k];
      Gone(r, q, next, ring, k, x);
    }
  }

  /** What store_packet is given for one channel. */
  datatype Arrival = Arrival(due: Due, data: seq<byte>, bfi: bool)

  method StoreAll(d: Lc3Data, decode: Packet -> seq<int>, arrivals: seq<Arrival>) returns (ps: seq<Packet>)
    requires d.Valid() && CacheValid(d, decode)
    modifies d`readIndex, d`taken, d`writeIndex, d`stored, d`dropped, d.packets
    ensures d.Valid() && CacheValid(d, decode) && |ps| == |arrivals|
    ensures forall i :: 0 <= i < |ps| ==> Due(ps[i].startTimeUs, ps[i].durationUs) == arrivals[i].due
    ensures d.Queue() == EnqueueAll(old(d.Queue()), ps, |ps|)
    ensures old(|d.Queue()|) + |ps| <= CAPACITY ==> d.taken == old(d.taken)
  {
    hide Slot, Lc3Data.Valid, Lc3Data.Queue, CacheValid;
    ghost var q := d.Queue();
    ps := [];
    for i := 0 to |arrivals|
      invariant d.Valid() && CacheValid(d, decode) && |ps| == i && d.Queue() == EnqueueAll(q, ps, i)
      invariant forall j :: 0 <= j < i ==> Due(ps[j].startTimeUs, ps[j].durationUs) == arrivals[j].due
      invariant |q| + i <= CAPACITY ==> d.taken == old(d.taken) && |d.Queue()| == |q| + i
    {
      var p := StorePacket(d, decode, arrivals[i].due, arrivals[i].data, arrivals[i].bfi);
      EnqueuedFront(q, ps, p, i);
      ps := ps + [p];
    }
  }

  function LastCell(r: Request, q: seq<Packet>): Cell
    requires r.n > 0 && Playback(r, Windows(q)).Done?
  {
    Playback(r, Windows(q)).cells[r.n - 1]
  }

  /** Packet k goes on to sound as it did in this callback. */
  ghost predicate SoundsOn(d: Lc3Data, decode: Packet -> seq<int>, q: seq<Packet>, sounds: seq<seq<int>>, k: nat)
    reads d, d.packets
  {
    && d.Valid() && !d.Empty() && k < |q| == |sounds|
    && forall t :: t < WindowOf(q[k]).End() ==> Heard(d, decode, d.Queue(), t)[0] == sounds[k]
  }

  lemma {:induction false} LastCached(d: Lc3Data, decode: Packet -> seq<int>, r: Request, q: seq<Packet>,
                                      sounds: seq<seq<int>>, was: Before)
    requires Playback(r, Windows(q)).Done? && r.n > 0 && Leaves(d, decode, r, q, sounds, was) && |q| == |sounds|
    ensures d.Valid() && CacheValid(d, decode) && d.Queue() == q[LeftBy(r, Windows(q)).next..]
    ensures var last := LastCell(r, q);
            last.Sample? ==>
              && last.packet < |q| && |d.Queue()| == |q| - last.packet
              && CacheOf(d) == Cache(Slot(d.taken), sounds[last.packet])
  {
    hide Plan, Left, Windows, Slot, CacheValid, Lc3Data.Valid;
    if LastCell(r, q).Sample? {
      LastStays(r, Windows(q), 0, r.t0, r.n, -1);
    }
  }

  lemma {:induction false} StillCached(d: Lc3Data, decode: Packet -> seq<int>, r: Request, q: seq<Packet>,
                                       ps: seq<Packet>, sounds: seq<seq<int>>, k: nat)
    requires r.n > 0 && Playback(r, Windows(q)).Done? && LastCell(r, q).Sample? && LastCell(r, q).packet == k
    requires k < |q| == |sounds| && |q| - k + |ps| <= CAPACITY && d.Valid() && d.Queue() == NextQueue(r, q, ps)
    requires CacheOf(d) == Cache(Slot(d.taken), sounds[k])
    ensures SoundsOn(d, decode, q, sounds, k)
  {
    hide Plan, Left, Windows, Slot, Lc3Data.Valid, Lc3Data.Queue, Enqueue;
    LastStays(r, Windows(q), 0, r.t0, r.n, -1);
    EnqueuedAll(q[k..], ps, |ps|);
    assert d.Queue()[0] == q[k];
  }

  /** One callback and the packets stored after it: the next callback finds NextQueue, and a packet that was cut by the
      end of the buffer and not dropped since goes on with the same sound. */
  method PlayThenStore(d: Lc3Data, decode: Packet -> seq<int>, fs: nat, samplesPerFrame: nat, buffer: array2<int>,
                       channel: nat, timestamp: uint32, playbackEndTimeUs: uint32, arrivals: seq<Arrival>,
                       ghost r: Request, ghost base: nat, ghost q: seq<Packet>)
    returns (ok: bool, ps: seq<Packet>)
    requires r == Request(fs, samplesPerFrame, timestamp, buffer.Length0, playbackEndTimeUs)
    requires Ready(d, decode, q, 0) && Timed(r, base, q) && channel < buffer.Length1 && buffer.Length0 > 0
    requires forall p :: |decode(p)| == samplesPerFrame
    modifies d`readIndex, d`taken, d`pcmBufferIndex, d`pcmBufferSamples, d`decoded, buffer
    modifies d`writeIndex, d`stored, d`dropped, d.packets
    ensures d.Valid() && CacheValid(d, decode) && ok == Playback(r, Windows(q)).Done?
    ensures ok ==> |ps| == |arrivals| && d.Queue() == NextQueue(r, q, ps)
    ensures ok ==> forall i :: 0 <= i < |ps| ==> Due(ps[i].startTimeUs, ps[i].durationUs) == arrivals[i].due
    ensures ok ==> Correct(buffer, channel, r, q, old(Heard(d, decode, q, r.t0)))
    ensures ok ==> var last := LastCell(r, q);
                   last.Sample? && |q| - last.packet + |ps| <= CAPACITY ==>
                     SoundsOn(d, decode, q, old(Heard(d, decode, q, r.t0)), last.packet)
  {
    hide Playback, LastCell, LeftBy, EnqueueAll, Heard, Windows, Ready, Leaves, CacheValid, Timed, Correct, SoundsOn,
         Slot, Lc3Data.Valid, Lc3Data.Queue;
    ghost var sounds, was := Heard(d, decode, q, r.t0), StateOf(d);
    ps := [];
    ok := PlayChannel(d, decode, fs, samplesPerFrame, buffer, channel, timestamp, playbackEndTimeUs, r, base, q);
    if ok {
      LastCached(d, decode, r, q, sounds, was);
      ghost var last := LastCell(r, q);
      ps := StoreAll(d, decode, arrivals);
      if last.Sample? && |q| - last.packet + |ps| <= CAPACITY {
        StillCached(d, decode, r, q, ps, sounds, last.packet);
      }
    }
  }

  // ----- a run with the wrong samples

  const RATE: nat := 48000
  const FRAME: nat := 480
  const FRAME_US: nat := 10000

  /** One packet each 10 ms. */
  function Sent(number: nat, data: seq<byte>): Packet
    requires number < 100
  {
    Packet(number * FRAME_US, FRAME_US, data, false)
  }

  /** Packets 2 to 20. */
  function SentSince(data: seq<byte>): (q: seq<Packet>)
    ensures |q| == CAPACITY && forall i :: 0 <= i < CAPACITY ==> q[i] == Sent(i + 2, data)
  {
    seq(CAPACITY, i requires 0 <= i < CAPACITY => Sent(i + 2, data))
  }

  /** The callback for packet `number`, with a buffer as long as a frame. */
  function Callback(number: nat): Request
    requires number < 100
  {
    Request(RATE, FRAME, number * FRAME_US, FRAME, (number + 1) * FRAME_US)
  }

  /** A callback plays a packet that starts with the buffer, if all before it are stale. */
  lemma {:induction false} PlaysWhole(number: nat, q: seq<Packet>, k: nat, data: seq<byte>)
    requires number < 100 && k < |q| && q[k] == Sent(number, data)
    requires forall j :: 0 <= j < k ==> WindowOf(q[j]).End() <= number * FRAME_US
    ensures Playback(Callback(number), Windows(q)) == Done(Samples(k, 0, FRAME))
    ensures FirstLive(q, number * FRAME_US, 0) == k
  {
    var r, w := Callback(number), Windows(q);
    hide FirstLive;
    StaleIrrelevant(r, w, 0, k, FRAME);
    ProductOf(RATE);
    assert CodeSamples(0, RATE) == 0;
    assert Plan(r, w, k, r.t0, FRAME) == Done(Samples(k, 0, FRAME));
  }

  /** It leaves that packet in the ring and in the cache. */
  lemma {:induction false} LeavesLast(d: Lc3Data, decode: Packet -> seq<int>, number: nat, q: seq<Packet>, k: nat,
                                      sounds: seq<seq<int>>, was: Before)
    requires number < 100 && k < |q| && Leaves(d, decode, Callback(number), q, sounds, was)
    requires Playback(Callback(number), Windows(q)) == Done(Samples(k, 0, FRAME))
    ensures Ready(d, decode, q, k) && d.taken == was.taken + k
    ensures k < |sounds| && CacheOf(d) == Cache(Slot(was.taken + k), sounds[k])
  {
    hide Ready, Plan, Left, Windows, Slot;
    var r := Callback(number);
    LastStays(r, Windows(q), 0, r.t0, r.n, -1);
  }

  /** The first callback plays packet 0 and leaves it in the ring and in the cache. */
  method FirstCallback(d: Lc3Data, decode: Packet -> seq<int>, buffer: array2<int>, first: seq<byte>)
    requires d.Valid() && CacheValid(d, decode) && d.decoded == -1 && d.stored == [] && d.taken == 0
    requires buffer.Length0 == FRAME && buffer.Length1 == 1 && forall p :: |decode(p)| == FRAME
    modifies d`readIndex, d`taken, d`writeIndex, d`stored, d`dropped, d.packets
    modifies d`pcmBufferIndex, d`pcmBufferSamples, d`decoded, buffer
    ensures Ready(d, decode, [Sent(0, first)], 0) && d.taken == 0
    ensures CacheOf(d) == Cache(0, decode(Sent(0, first)))
  {
    var p := StorePacket(d, decode, Due(0, FRAME_US), first, false);
    ghost var q := [p];
    PlaysWhole(0, q, 0, first);
    ghost var sounds, was := Heard(d, decode, q, 0), StateOf(d);
    assert sounds[0] == decode(p);
    hide Playback, Heard, Leaves, Windows, Slot, FirstLive, Correct;
    var ok := PlayChannel(d, decode, RATE, FRAME, buffer, 0, 0, FRAME_US, Callback(0), 0, q);
    LeavesLast(d, decode, 0, q, 0, sounds, was);
  }

  /** Packets 0 to n - 1 have been stored, with other data since the first; the oldest was dropped for each one above
      19. The cache is the one of the first callback. */
  ghost predicate Backlog(d: Lc3Data, decode: Packet -> seq<int>, first: seq<byte>, last: seq<byte>, n: nat)
    reads d, d.packets
  {
    && d.Valid() && CacheValid(d, decode) && CacheOf(d) == Cache(0, decode(Sent(0, first)))
    && 0 < n == |d.stored| < 100 && d.taken == Dropped(n)
    && forall i :: 0 <= i < n ==> d.stored[i] == Sent(i, if i == 0 then first else last)
  }

  method StoreMore(d: Lc3Data, decode: Packet -> seq<int>, first: seq<byte>, last: seq<byte>)
    requires Backlog(d, decode, first, last, 1)
    modifies d`readIndex, d`taken, d`writeIndex, d`stored, d`dropped, d.packets
    ensures Backlog(d, decode, first, last, 21)
  {
    hide Slot, Lc3Data.Valid, Enqueue, CacheValid;
    for k := 1 to 21
      invariant Backlog(d, decode, first, last, k)
    {
      var p := StorePacket(d, decode, Due(k * FRAME_US, FRAME_US), last, false);
    }
  }

  /** The second callback starts when packet 20 does: all others are stale, and the buffer gets the cached samples. */
  method SecondCallback(d: Lc3Data, decode: Packet -> seq<int>, buffer: array2<int>, first: seq<byte>, last: seq<byte>)
    requires Backlog(d, decode, first, last, 21)
    requires buffer.Length0 == FRAME && buffer.Length1 == 1 && forall p :: |decode(p)| == FRAME
    modifies d`readIndex, d`taken, d`pcmBufferIndex, d`pcmBufferSamples, d`decoded, buffer
    ensures d.Valid() && d.Queue() == [Sent(20, last)]
    ensures Column(buffer, 0) == decode(Sent(0, first))
  {
    ghost var q := SentSince(last);
    assert d.Queue() == q;
    PlaysWhole(20, q, 18, last);
    ghost var sounds, was := Heard(d, decode, q, 200000), StateOf(d);
    assert sounds[18] == decode(Sent(0, first));
    hide Playback, Heard, Leaves, Windows, Slot, FirstLive, CacheValid, Lc3Data.Queue;
    var ok := PlayChannel(d, decode, RATE, FRAME, buffer, 0, 200000, 210000, Callback(20), 0, q);
    LeavesLast(d, decode, 20, q, 18, sounds, was);
    assert Column(buffer, 0) == sounds[18];
  }

  /** A run with wrong samples: packet 0 is decoded and stays cached, 20 more are stored before the next callback, which
      drops the ones before the last as stale and plays the samples of packet 0 for the last one, which sits in the
      same slot. */
  method StaleSamples(decode: Packet -> seq<int>, buffer: array2<int>, first: seq<byte>, last: seq<byte>)
    returns (d: Lc3Data)
    requires buffer.Length0 == FRAME && buffer.Length1 == 1 && forall p :: |decode(p)| == FRAME
    modifies buffer
    ensures d.Valid() && d.Queue() == [Sent(20, last)]
    ensures Column(buffer, 0) == decode(Sent(0, first))
  {
    d := new Lc3Data(Packet(0, 0, [], true));
    FirstCallback(d, decode, buffer, first);
    StoreMore(d, decode, first, last);
    SecondCallback(d, decode, buffer, first, last);
  }
}
