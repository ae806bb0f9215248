/** The per-channel jitter buffer of le_audio_demo_util_sink.c: 20 packet slots, of which 19 can be in use,
    dropping the oldest packet when a new one does not fit. */
module Lc3Ring {
  import opened Arith
  import opened ByteRing

  const MAX_NUM_LC3_FRAMES: nat := 20
  const NOT_DECODED: nat := 0xff

  datatype Packet = Packet(startTimeUs: uint32, durationUs: uint32, lc3Frame: seq<byte>, bfi: bool)

  /** The bounded queue the ring implements. */
  function Enqueue(q: seq<Packet>, p: Packet): seq<Packet> {
    (if |q| >= MAX_NUM_LC3_FRAMES - 1 then q[1..] else q) + [p]
  }

  lemma {:induction false} Enqueued(all: seq<Packet>, from: nat, p: Packet)
    requires from <= |all|
    ensures Enqueue(all[from..], p) ==
            (all + [p])[if |all| - from >= MAX_NUM_LC3_FRAMES - 1 then from + 1 else from..]
  {
  }

  datatype Op = Store(p: Packet) | Take

  /** Queue content after the first n operations of a run. */
  function Queued(ops: seq<Op>, n: nat): seq<Packet>
    requires n <= |ops|
  {
    if n == 0 then []
    else
      var q := Queued(ops, n - 1);
      match ops[n - 1]
      case Store(p) => Enqueue(q, p)
      case Take => if q == [] then [] else q[1..]
  }

  /** All packets stored by then. */
  function Stored(ops: seq<Op>, n: nat): seq<Packet>
    requires n <= |ops|
  {
    if n == 0 then []
    else if ops[n - 1].Store? then Stored(ops, n - 1) + [ops[n - 1].p]
    else Stored(ops, n - 1)
  }

  /** The number of the oldest packet that is left of `stored` packets, when those below `read` have been read. */
  function Oldest(stored: nat, read: nat): nat {
    if stored - read > MAX_NUM_LC3_FRAMES - 1 then stored - (MAX_NUM_LC3_FRAMES - 1) else read
  }

  /** The number behind the last packet that was read. */
  function Read(ops: seq<Op>, n: nat): (r: nat)
    requires n <= |ops|
    ensures r <= |Stored(ops, n)|
  {
    if n == 0 then 0
    else
      var stored := |Stored(ops, n - 1)|;
      var head := Oldest(stored, Read(ops, n - 1));
      if ops[n - 1].Take? && head < stored then head + 1 else Read(ops, n - 1)
  }

  /** What is left: the unread packets, or the most recent 19 of them. */
  function Unread(stored: seq<Packet>, read: nat): (q: seq<Packet>)
    requires read <= |stored|
    ensures |q| == Min(|stored| - read, MAX_NUM_LC3_FRAMES - 1)
  {
    stored[Oldest(|stored|, read)..]
  }

  lemma {:induction false} StoreStep(s: seq<Packet>, r: nat, p: Packet)
    requires r <= |s|
    ensures Enqueue(Unread(s, r), p) == Unread(s + [p], r)
  {
  }

  lemma {:induction false} TakeStep(s: seq<Packet>, r: nat)
    requires r <= |s|
    ensures Unread(s, r) == [] <==> Oldest(|s|, r) >= |s|
    ensures Oldest(|s|, r) < |s| ==> Unread(s, r)[1..] == Unread(s, Oldest(|s|, r) + 1)
  {
  }

  /** After any run the queue holds exactly the unread packets in order, or the most recent 19 of them if there are
      more. */
  lemma {:induction false} MostRecentUnread(ops: seq<Op>, n: nat)
    requires n <= |ops|
    ensures Queued(ops, n) == Unread(Stored(ops, n), Read(ops, n))
  {
    hide Enqueue, Unread, Oldest;
    if n > 0 {
      MostRecentUnread(ops, n - 1);
      var s, r := Stored(ops, n - 1), Read(ops, n - 1);
      match ops[n - 1]
      case Store(p) =>
        StoreStep(s, r, p);
      case Take =>
        TakeStep(s, r);
    }
  }

  /** le_audio_demo_util_ringbuffer_next */
  function RingbufferNext(index: nat): nat {
    (index + 1) % MAX_NUM_LC3_FRAMES
  }

  /** Slot of the packet with a given number. */
  function Slot(number: nat): nat {
    number % MAX_NUM_LC3_FRAMES
  }

  /** Packets less than a ring apart have different slots. */
  lemma {:induction false} SlotInjective(a: nat, b: nat)
    requires a <= b < a + MAX_NUM_LC3_FRAMES && Slot(a) == Slot(b)
    ensures a == b
  {
  }

  lemma {:induction false} SlotDifference(a: nat, b: nat)
    requires a <= b < a + MAX_NUM_LC3_FRAMES
    ensures b - a == if Slot(b) >= Slot(a) then Slot(b) - Slot(a) else MAX_NUM_LC3_FRAMES + Slot(b) - Slot(a)
  {
  }

  /** Packets share a slot exactly if a whole number of rings lies between them. */
  lemma {:induction false} SameSlot(a: nat, b: nat)
    ensures Slot(a) == Slot(b) <==> (b - a) % MAX_NUM_LC3_FRAMES == 0
  {
    var rings := b / MAX_NUM_LC3_FRAMES - a / MAX_NUM_LC3_FRAMES;
    assert b - a == MAX_NUM_LC3_FRAMES * rings + (Slot(b) - Slot(a));
    hide Slot;
    WholeRings(b - a, rings);
  }

  lemma {:induction false} WholeRings(x: int, rings: int)
    requires 0 < x - MAX_NUM_LC3_FRAMES * rings + MAX_NUM_LC3_FRAMES < 2 * MAX_NUM_LC3_FRAMES
    ensures x % MAX_NUM_LC3_FRAMES == 0 <==> x == MAX_NUM_LC3_FRAMES * rings
  {
  }

  lemma {:induction false} SlotNext(n: nat)
    ensures RingbufferNext(Slot(n)) == Slot(n + 1) < MAX_NUM_LC3_FRAMES
  {
  }

  /** The bytes of one channel in an SDU; empty if the SDU is too short. */
  function Part(data: seq<byte>, channel: nat, octetsPerFrame: nat): seq<byte> {
    if (channel + 1) * octetsPerFrame <= |data| then data[channel * octetsPerFrame..(channel + 1) * octetsPerFrame]
    else []
  }

  lemma {:induction false} PartOfFront(a: seq<byte>, b: seq<byte>, channel: nat, octetsPerFrame: nat)
    requires (channel + 1) * octetsPerFrame <= |a|
    ensures Part(a + b, channel, octetsPerFrame) == Part(a, channel, octetsPerFrame)
  {
    var lo, hi := channel * octetsPerFrame, (channel + 1) * octetsPerFrame;
    assert lo <= hi;
    assert (a + b)[lo..hi] == a[lo..hi];
  }

  lemma {:induction false} PartOfBack(a: seq<byte>, b: seq<byte>, channel: nat, octetsPerFrame: nat)
    requires |a| == channel * octetsPerFrame && |b| == octetsPerFrame
    ensures Part(a + b, channel, octetsPerFrame) == b
  {
    assert (channel + 1) * octetsPerFrame == channel * octetsPerFrame + octetsPerFrame;
    assert (a + b)[|a|..|a| + |b|] == b;
  }

  /** When a packet is to be played, and for how long. */
  datatype Due = Due(startTimeUs: uint32, durationUs: uint32)

  /** One more packet was stored, with the given bytes unless it is marked as lost. */
  ghost predicate Arrived(d: Lc3Data, before: seq<Packet>, due: Due, bfi: bool, data: seq<byte>)
    reads d
  {
    && |d.stored| == |before| + 1 && before <= d.stored
    && var p := d.stored[|before|];
       && p.startTimeUs == due.startTimeUs && p.durationUs == due.durationUs
       && p.bfi == bfi && (!bfi ==> p.lc3Frame == data)
  }

  class Lc3Data {
    var writeIndex: nat
    var readIndex: nat
    const packets: array<Packet>
    var pcmBufferIndex: nat          // slot decoded into the samples below, or NOT_DECODED
    var pcmBufferSamples: seq<int>
    var pcmBufferNextSample: nat     // generic playback only
    ghost var decoded: int           // accurate playback: number of the packet the samples come from, or -1
    var framesDecoded: nat           // generic playback: how many packets were decoded
    ghost var decodes: seq<nat>      // generic playback: their numbers
    ghost var played: seq<int>       // generic playback: samples played so far
    ghost var dropped: nat           // packets overwritten unread
    ghost var stored: seq<Packet>  // every packet stored since the ring was initialised
    ghost var taken: nat           // how many of them have been read or dropped

    ghost predicate Valid()
      reads this, packets
    {
      && packets.Length == MAX_NUM_LC3_FRAMES
      && writeIndex == Slot(|stored|)
      && readIndex == Slot(taken)
      && taken <= |stored| < taken + MAX_NUM_LC3_FRAMES
      && (forall k :: taken <= k < |stored| ==> packets[Slot(k)] == stored[k])
    }

    ghost function Queue(): seq<Packet>
      requires Valid()
      reads this, packets
    {
      stored[taken..]
    }

    constructor (empty: Packet)
      ensures Valid() && fresh(packets) && stored == [] && taken == 0
      ensures pcmBufferIndex == NOT_DECODED && decoded == -1 && pcmBufferSamples == [] && pcmBufferNextSample == 0
      ensures framesDecoded == 0 && decodes == [] && played == [] && dropped == 0
    {
      packets := new Packet[MAX_NUM_LC3_FRAMES](_ => empty);
      writeIndex, readIndex, stored, taken := 0, 0, [], 0;
      pcmBufferIndex, pcmBufferSamples, pcmBufferNextSample, decoded := NOT_DECODED, [], 0, -1;
      framesDecoded, decodes, played, dropped := 0, [], [], 0;
    }

    predicate Empty()
      requires Valid()
      reads this, packets
      ensures Empty() <==> Queue() == []
    {
      writeIndex == readIndex
    }

    predicate Full()
      requires Valid()
      reads this, packets
      ensures Full() <==> |Queue()| == MAX_NUM_LC3_FRAMES - 1
    {
      RingbufferNext(writeIndex) == readIndex
    }

    function Available(): (n: nat)
      requires Valid()
      reads this, packets
      ensures n == |Queue()|
    {
      SlotDifference(taken, |stored|);
      if writeIndex >= readIndex then writeIndex - readIndex
      else MAX_NUM_LC3_FRAMES + writeIndex - readIndex
    }

    /** The packet that will be read next. */
    function Head(): (p: Packet)
      requires Valid() && !Empty()
      reads this, packets
      ensures p == Queue()[0]
    {
      packets[readIndex]
    }

    /** Moves the read index on, after a packet was played, decoded or found stale. */
    method Advance()
      requires Valid() && !Empty()
      modifies this`readIndex, this`taken
      ensures Valid() && taken == old(taken) + 1 && Queue() == old(Queue())[1..]
    {
      SlotNext(taken);
      hide Slot, RingbufferNext;
      readIndex := RingbufferNext(readIndex);
      taken := taken + 1;
    }

    /** Writes behind the newest packet of a ring that is not full. */
    method Put(p: Packet)
      requires Valid() && |stored| + 1 < taken + MAX_NUM_LC3_FRAMES
      modifies this`writeIndex, this`stored, packets
      ensures Valid() && stored == old(stored) + [p]
    {
      forall k | taken <= k < |stored| ensures Slot(k) != Slot(|stored|) {
        if Slot(k) == Slot(|stored|) {
          SlotInjective(k, |stored|);
        }
      }
      SlotNext(|stored|);
      hide Slot, RingbufferNext;
      packets[writeIndex] := p;
      writeIndex := RingbufferNext(writeIndex);
      stored := stored + [p];
    }

    method Drop()
      requires Valid() && !Empty()
      modifies this`readIndex, this`taken, this`dropped
      ensures Valid() && taken == old(taken) + 1 && dropped == old(dropped) + 1 && Queue() == old(Queue())[1..]
    {
      hide Slot;
      Advance();
      dropped := dropped + 1;
    }

    /** One channel of store_packet: drop the oldest packet if full, then write. A lost frame keeps the
        bytes the slot held before. */
    method StorePacket(startTimeUs: uint32, durationUs: uint32, data: seq<byte>, bfi: bool) returns (p: Packet)
      requires Valid()
      modifies this`readIndex, this`taken, this`writeIndex, this`stored, this`dropped, packets
      ensures Valid() && p == Packet(startTimeUs, durationUs, p.lc3Frame, bfi) && (!bfi ==> p.lc3Frame == data)
      ensures stored == old(stored) + [p] && taken == old(if Full() then taken + 1 else taken)
      ensures dropped - old(dropped) == taken - old(taken) && taken <= |old(stored)|
      ensures Queue() == Enqueue(old(Queue()), p)
    {
      hide Slot, RingbufferNext, Enqueue, Lc3Data.Valid;
      InRange();
      ghost var all, from := stored, taken;
      if Full() {
        Drop();
      }
      assert !Full();
      InRange();
      var frame := if bfi then packets[writeIndex].lc3Frame else data;
      p := Packet(startTimeUs, durationUs, frame, bfi);
      Put(p);
      Enqueued(all, from, p);
    }

    lemma {:induction false} InRange()
      requires Valid()
      ensures writeIndex < packets.Length && taken <= |stored| < taken + MAX_NUM_LC3_FRAMES
    {
    }
  }
}
