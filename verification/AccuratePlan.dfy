/** The accurate ("external trigger") playback callback of le_audio_demo_util_sink.c, as a plan that says for
    every position of the playback buffer whether it is silent or which sample of which queued packet it
    plays. Times are microseconds, errors are counted in millionths of a sample. */
module AccuratePlan {
  import opened Arith

  const US_PER_S: int := 1_000_000
  const MAX_SAMPLES_PER_FRAME: nat := 480
  const MAX_CALLBACK_SAMPLES: nat := 2148  // num_samples * 1000000 must fit an int

  /** When a queued packet starts, and for how long it plays. */
  datatype Window = Window(start: int, duration: nat) {
    function End(): int { start + duration }
  }

  // ----- samples and microseconds

  /** Time that `samples` samples take, rounded down to a microsecond. */
  function Duration(samples: nat, fs: nat): nat
    requires fs > 0
  {
    samples * US_PER_S / fs
  }

  lemma {:induction false} DurationBounds(samples: nat, fs: nat)
    requires fs > 0
    ensures Product(Duration(samples, fs), fs) <= samples * US_PER_S < Product(Duration(samples, fs) + 1, fs)
  {
    var x := samples * US_PER_S;
    assert x == x / fs * fs + x % fs;
    ProductPlus(x / fs, 1, fs);
  }

  /** Samples that fit into `us` microseconds. */
  function SamplesIn(us: nat, fs: nat): (r: nat)
    ensures r * US_PER_S <= Product(us, fs) < (r + 1) * US_PER_S
  {
    Product(us, fs) / US_PER_S
  }

  /** The same in the arithmetic of the callback: a 32 bit product and a 16 bit result. */
  function CodeSamples(us: nat, fs: nat): (r: nat)
    ensures r < 0x1_0000
  {
    U16(U32(Product(us, fs)) / US_PER_S)
  }

  lemma {:induction false} CodeExact(us: nat, fs: nat)
    requires Product(us, fs) < 0x1_0000_0000
    ensures CodeSamples(us, fs) == SamplesIn(us, fs)
  {
    hide Product;
    assert U32(Product(us, fs)) == Product(us, fs);
  }

  // ----- the callback for one channel

  /** One playback request: sampling frequency, frame size, start of the buffer, its size in samples, and the end
      of the buffer the callback works with, which is cached and can be wrong. */
  datatype Request = Request(fs: nat, samplesPerFrame: nat, t0: int, n: nat, end: int) {

    predicate Valid() {
      fs > 0 && samplesPerFrame <= MAX_SAMPLES_PER_FRAME && n < MAX_CALLBACK_SAMPLES
    }

    /** When the buffer really ends. */
    function End(): int
      requires fs > 0
    {
      t0 + Duration(n, fs)
    }

    /** The packets' windows have the configured length and neither overlap nor go back in time. */
    ghost predicate Fits(q: seq<Window>) {
      && (forall i :: 0 <= i < |q| ==> 0 < q[i].duration && Product(q[i].duration, fs) == samplesPerFrame * US_PER_S)
      && (forall i, j :: 0 <= i < j < |q| ==> q[i].End() <= q[j].start)
    }

    /** How far the clock `c` runs ahead of the `n - m` samples written so far. */
    function Lag(c: int, m: nat): int {
      Product(c - t0, fs) - US_PER_S * (n - m)
    }

    /** What the loop keeps: nothing written yet, or the next packet is not in the past; and the samples
        written are less than one sample ahead of the clock. */
    ghost predicate OnTrack(q: seq<Window>, i: nat, c: int, m: nat) {
      && i <= |q| && m <= n
      && ((c == t0 && m == n) || (forall k :: i <= k < |q| ==> c <= q[k].start))
      && -US_PER_S < Lag(c, m)
    }

    /** No packet that starts behind the buffer is let through. */
    predicate NotLate()
      requires fs > 0
    {
      end <= End()
    }

    /** No packet that starts before the last sample is held back. */
    predicate NotEarly() {
      US_PER_S * (n - 1) < Product(end + 1 - t0, fs)
    }
  }

  datatype Cell = Silence | Sample(packet: nat, index: nat)

  /** The callback fills the buffer, writes silence past its end, or fails its assertion on the sample index. */
  datatype Outcome = Done(cells: seq<Cell>) | Overrun | BadIndex

  function Silences(m: nat): (r: seq<Cell>)
    ensures |r| == m && forall k :: 0 <= k < m ==> r[k] == Silence
  {
    seq(m, _ => Silence)
  }

  function Samples(packet: nat, index: nat, m: nat): (r: seq<Cell>)
    ensures |r| == m && forall k :: 0 <= k < m ==> r[k] == Sample(packet, index + k)
  {
    seq(m, (k: nat) => Sample(packet, index + k))
  }

  function Then(front: seq<Cell>, rest: Outcome): Outcome {
    if rest.Done? then Done(front + rest.cells) else rest
  }

  /** The loop from packet `i` on, with the clock at `c` and `m` samples owed, for any windows and any end time. A
      path that fills the buffer writes exactly the samples owed. */
  function Plan(r: Request, q: seq<Window>, i: nat, c: int, m: nat): (o: Outcome)
    requires i <= |q|
    ensures o.Done? ==> |o.cells| == m
    decreases |q| - i, if i < |q| && c < q[i].start then 1 else 0
  {
    if m == 0 then Done([])
    else if i == |q| then Done(Silences(m))
    else if q[i].End() <= c then Plan(r, q, i + 1, c, m)
    else if r.end < q[i].start then Done(Silences(m))
    else if c < q[i].start then
      var silent := CodeSamples(q[i].start - c, r.fs);
      if silent > m then Overrun
      else Then(Silences(silent), Plan(r, q, i, q[i].start, m - silent))
    else
      var index := CodeSamples(c - q[i].start, r.fs);
      if index > r.samplesPerFrame then BadIndex
      else
        var left := r.samplesPerFrame - index;
        if m <= left then Done(Samples(i, index, m))
        else Then(Samples(i, index, left), Plan(r, q, i + 1, q[i].End(), m - left))
  }

  /** The whole callback for one channel. */
  function Playback(r: Request, q: seq<Window>): (o: Outcome)
    ensures o.Done? ==> |o.cells| == r.n
  {
    Plan(r, q, 0, r.t0, r.n)
  }

  // ----- fitting windows and an end time that is not late: the buffer is filled

  /** The silence before a packet never exceeds the samples still owed, despite two rounding divisions. */
  lemma {:induction false} SilenceFits(r: Request, q: seq<Window>, i: nat, c: int, m: nat)
    requires r.Valid() && r.NotLate() && r.OnTrack(q, i, c, m) && i < |q| && c < q[i].start <= r.end
    ensures var silent := CodeSamples(q[i].start - c, r.fs);
            silent == SamplesIn(q[i].start - c, r.fs) <= m && r.Lag(q[i].start, m - silent) > -US_PER_S
  {
    var start, us := q[i].start, q[i].start - c;
    DurationBounds(r.n, r.fs);
    ProductMonotone(start - r.t0, r.End() - r.t0, r.fs);
    ProductPlus(us, c - r.t0, r.fs);
    hide Product, Duration;
    assert Product(us, r.fs) < US_PER_S * (m + 1);
    CodeExact(us, r.fs);
  }

  /** A packet that has not ended has samples left, and copying them keeps the loop on track. */
  lemma {:induction false} CopyFits(r: Request, q: seq<Window>, i: nat, c: int, m: nat)
    requires r.Valid() && r.Fits(q) && r.OnTrack(q, i, c, m) && i < |q|
    requires q[i].start <= c < q[i].End()
    ensures var index := CodeSamples(c - q[i].start, r.fs);
            && index == SamplesIn(c - q[i].start, r.fs) < r.samplesPerFrame
            && (r.samplesPerFrame - index < m ==>
                  r.OnTrack(q, i + 1, q[i].End(), m - (r.samplesPerFrame - index)))
  {
    var w, us := q[i], c - q[i].start;
    ProductIncreases(us, w.duration, r.fs);
    ProductPlus(c - r.t0, w.duration - us, r.fs);
    ProductPlus(us, w.duration - us, r.fs);
    assert w.End() - r.t0 == (c - r.t0) + (w.duration - us);
    assert Product(w.duration, r.fs) == r.samplesPerFrame * US_PER_S;
    hide Product;
    CodeExact(us, r.fs);
  }

  lemma {:induction false} PlanDone(r: Request, q: seq<Window>, i: nat, c: int, m: nat)
    requires r.Valid() && r.NotLate() && r.Fits(q) && r.OnTrack(q, i, c, m)
    ensures Plan(r, q, i, c, m).Done?
    decreases |q| - i, if i < |q| && c < q[i].start then 1 else 0
  {
    hide CodeSamples, SamplesIn, Product, Duration;
    if m > 0 && i < |q| {
      if q[i].End() <= c {
        PlanDone(r, q, i + 1, c, m);
      } else if q[i].start <= r.end {
        if c < q[i].start {
          SilenceFits(r, q, i, c, m);
          PlanDone(r, q, i, q[i].start, m - CodeSamples(q[i].start - c, r.fs));
        } else {
          CopyFits(r, q, i, c, m);
          var left := r.samplesPerFrame - CodeSamples(c - q[i].start, r.fs);
          if left < m {
            PlanDone(r, q, i + 1, q[i].End(), m - left);
          }
        }
      }
    }
  }

  lemma {:induction false} StartsOnTrack(r: Request, q: seq<Window>)
    ensures r.OnTrack(q, 0, r.t0, r.n)
  {
  }

  /** Every fitting queue fills the buffer if the end time is not late. */
  lemma {:induction false} PlaybackDone(r: Request, q: seq<Window>)
    requires r.Valid() && r.NotLate() && r.Fits(q)
    ensures Playback(r, q).Done?
  {
    StartsOnTrack(r, q);
    PlanDone(r, q, 0, r.t0, r.n);
  }

  // ----- the callback on its way through the plan

  /** What is left of an outcome behind the first w cells. */
  ghost function Rest(all: Outcome, w: nat): Outcome {
    if all.Done? && w <= |all.cells| then Done(all.cells[w..]) else all
  }

  /** The callback has written `n - m` cells of the outcome `all` and stands at packet `i`, clock `c`. */
  ghost predicate At(r: Request, q: seq<Window>, all: Outcome, i: nat, c: int, m: nat) {
    && i <= |q| && m <= r.n && (all.Done? ==> |all.cells| == r.n)
    && Plan(r, q, i, c, m) == Rest(all, r.n - m)
  }

  lemma {:induction false} AtStart(r: Request, q: seq<Window>)
    ensures At(r, q, Playback(r, q), 0, r.t0, r.n)
  {
    hide Plan;
    var all := Playback(r, q);
    assert all.Done? ==> all.cells[0..] == all.cells;
  }

  lemma {:induction false} AtStale(r: Request, q: seq<Window>, all: Outcome, i: nat, c: int, m: nat)
    requires At(r, q, all, i, c, m) && m > 0 && i < |q| && q[i].End() <= c
    ensures At(r, q, all, i + 1, c, m)
  {
    hide CodeSamples;
  }

  /** No packet left, or the next one starts after the buffer. */
  lemma {:induction false} AtEnd(r: Request, q: seq<Window>, all: Outcome, i: nat, c: int, m: nat)
    requires At(r, q, all, i, c, m) && m > 0
    requires i == |q| || (c < q[i].End() && r.end < q[i].start)
    ensures all.Done? && forall p :: r.n - m <= p < r.n ==> all.cells[p] == Silence
  {
    hide CodeSamples;
    FrontOf(all, r.n - m, Silences(m), Done([]));
  }

  /** The outcome behind w cells begins with `front`. */
  lemma {:induction false} FrontOf(all: Outcome, w: nat, front: seq<Cell>, rest: Outcome)
    requires Rest(all, w) == Then(front, rest)
    ensures all.Done? && w <= |all.cells| ==>
              && rest.Done? && w + |front| <= |all.cells| && Rest(all, w + |front|) == rest
              && forall p :: w <= p < w + |front| ==> all.cells[p] == front[p - w]
    ensures !all.Done? ==> all == rest
  {
    if all.Done? && w <= |all.cells| {
      var back := all.cells[w..];
      assert back == front + rest.cells;
      assert all.cells[w + |front|..] == back[|front|..] == rest.cells;
      forall p | w <= p < w + |front| ensures all.cells[p] == front[p - w] {
        assert all.cells[p] == back[p - w];
      }
    }
  }

  /** Silence before a packet: it exceeds what is owed exactly if the callback overruns here. */
  lemma {:induction false} AtGap(r: Request, q: seq<Window>, all: Outcome, i: nat, c: int, m: nat, silent: nat)
    requires At(r, q, all, i, c, m) && m > 0 && i < |q| && c < q[i].start <= r.end
    requires silent == CodeSamples(q[i].start - c, r.fs)
    ensures if silent > m then all == Overrun
            else At(r, q, all, i, q[i].start, m - silent) &&
                 (all.Done? ==> forall p :: r.n - m <= p < r.n - m + silent ==> all.cells[p] == Silence)
  {
    hide CodeSamples;
    if silent <= m {
      var rest := Plan(r, q, i, q[i].start, m - silent);
      assert Plan(r, q, i, c, m) == Then(Silences(silent), rest);
      hide Plan;
      FrontOf(all, r.n - m, Silences(silent), rest);
    }
  }

  /** The samples of a packet: the assertion on the index fails exactly if the outcome says so. */
  lemma {:induction false} AtCopy(r: Request, q: seq<Window>, all: Outcome, i: nat, c: int, m: nat, index: nat)
    requires At(r, q, all, i, c, m) && m > 0 && i < |q|
    requires q[i].start <= c < q[i].End() && q[i].start <= r.end && index == CodeSamples(c - q[i].start, r.fs)
    ensures if index > r.samplesPerFrame then all == BadIndex
            else
              var count := Min(r.samplesPerFrame - index, m);
              && At(r, q, all, if count < m then i + 1 else i, q[i].End(), m - count)
              && (all.Done? ==> forall p :: r.n - m <= p < r.n - m + count ==>
                                  all.cells[p] == Sample(i, index + p - (r.n - m)))
  {
    hide CodeSamples;
    if index <= r.samplesPerFrame {
      var count := Min(r.samplesPerFrame - index, m);
      var rest := if count < m then Plan(r, q, i + 1, q[i].End(), m - count) else Done([]);
      assert Plan(r, q, i, c, m) == Then(Samples(i, index, count), rest);
      assert count == m ==> Plan(r, q, i, q[i].End(), 0) == Done([]);
      hide Plan;
      FrontOf(all, r.n - m, Samples(i, index, count), rest);
    }
  }

  // ----- what the callback leaves behind

  /** The packet that is next in the ring, and the packet that was decoded last, or -1. */
  datatype Remains = Remains(next: nat, decoded: int)

  /** The loop drops what is stale and what it has played to the end with samples still owed, and decodes every other
      packet it looks at. */
  function Left(r: Request, q: seq<Window>, i: nat, c: int, m: nat, decoded: int): (e: Remains)
    requires i <= |q|
    ensures i <= e.next <= |q|
    decreases |q| - i, if i < |q| && c < q[i].start then 1 else 0
  {
    if m == 0 || i == |q| then Remains(i, decoded)
    else if q[i].End() <= c then Left(r, q, i + 1, c, m, decoded)
    else if r.end < q[i].start then Remains(i, i)
    else if c < q[i].start then
      var silent := CodeSamples(q[i].start - c, r.fs);
      if silent > m then Remains(i, i) else Left(r, q, i, q[i].start, m - silent, i)
    else
      var index := CodeSamples(c - q[i].start, r.fs);
      if index > r.samplesPerFrame || m <= r.samplesPerFrame - index then Remains(i, i)
      else Left(r, q, i + 1, q[i].End(), m - (r.samplesPerFrame - index), i)
  }

  function LeftBy(r: Request, q: seq<Window>): (e: Remains)
    ensures e.next <= |q|
  {
    Left(r, q, 0, r.t0, r.n, -1)
  }

  lemma {:induction false} LeftNow(r: Request, q: seq<Window>, i: nat, c: int, m: nat, decoded: int)
    requires i <= |q| && (m == 0 || i == |q|)
    ensures Left(r, q, i, c, m, decoded) == Remains(i, decoded)
  {
  }

  lemma {:induction false} LeftHeld(r: Request, q: seq<Window>, i: nat, c: int, m: nat, decoded: int)
    requires i < |q| && m > 0 && c < q[i].End() && r.end < q[i].start
    ensures Left(r, q, i, c, m, decoded) == Left(r, q, i, c, 0, i) == Remains(i, i)
  {
  }

  lemma {:induction false} LeftStale(r: Request, q: seq<Window>, i: nat, c: int, m: nat, decoded: int)
    requires i < |q| && m > 0 && q[i].End() <= c
    ensures Left(r, q, i, c, m, decoded) == Left(r, q, i + 1, c, m, decoded)
  {
    hide CodeSamples;
  }

  lemma {:induction false} LeftGap(r: Request, q: seq<Window>, i: nat, c: int, m: nat, decoded: int, silent: nat)
    requires i < |q| && m > 0 && c < q[i].start <= r.end && silent == CodeSamples(q[i].start - c, r.fs) <= m
    ensures Left(r, q, i, c, m, decoded) == Left(r, q, i, q[i].start, m - silent, i)
  {
    hide CodeSamples;
  }

  lemma {:induction false} LeftCopy(r: Request, q: seq<Window>, i: nat, c: int, m: nat, decoded: int, index: nat)
    requires i < |q| && m > 0 && q[i].start <= c < q[i].End() && q[i].start <= r.end
    requires index == CodeSamples(c - q[i].start, r.fs) <= r.samplesPerFrame
    ensures var count := Min(r.samplesPerFrame - index, m);
            Left(r, q, i, c, m, decoded) == Left(r, q, if count < m then i + 1 else i, q[i].End(), m - count, i)
  {
    hide CodeSamples;
  }

  /** If the last sample of the buffer belongs to a packet, that packet stays in the ring and in the cache. */
  lemma {:induction false} LastStays(r: Request, q: seq<Window>, i: nat, c: int, m: nat, decoded: int)
    requires i <= |q| && m > 0 && Plan(r, q, i, c, m).Done? && Plan(r, q, i, c, m).cells[m - 1].Sample?
    ensures var k := Plan(r, q, i, c, m).cells[m - 1].packet;
            k < |q| && Left(r, q, i, c, m, decoded) == Remains(k, k)
    decreases |q| - i, if i < |q| && c < q[i].start then 1 else 0
  {
    hide CodeSamples;
    if i < |q| {
      if q[i].End() <= c {
        LastStays(r, q, i + 1, c, m, decoded);
      } else if q[i].start <= r.end {
        if c < q[i].start {
          var silent := CodeSamples(q[i].start - c, r.fs);
          if silent < m {
            LastStays(r, q, i, q[i].start, m - silent, i);
          }
        } else {
          var left := r.samplesPerFrame - CodeSamples(c - q[i].start, r.fs);
          if left < m {
            LastStays(r, q, i + 1, q[i].End(), m - left, i);
          }
        }
      }
    }
  }

  /** A packet leaves the ring only if it had ended when the buffer started, or if its last sample is in the buffer. */
  ghost predicate Over(r: Request, q: seq<Window>, cells: seq<Cell>, k: nat) {
    k < |q| && (q[k].End() <= r.t0 || (r.samplesPerFrame > 0 && Sample(k, r.samplesPerFrame - 1) in cells))
  }

  lemma {:induction false} LeavesOver(r: Request, q: seq<Window>, i: nat, c: int, m: nat, decoded: int, k: nat)
    requires r.Valid() && r.NotLate() && r.Fits(q) && r.OnTrack(q, i, c, m)
    requires i <= k < Left(r, q, i, c, m, decoded).next
    ensures Plan(r, q, i, c, m).Done? && Over(r, q, Plan(r, q, i, c, m).cells, k)
    decreases |q| - i, if i < |q| && c < q[i].start then 1 else 0
  {
    PlanDone(r, q, i, c, m);
    hide CodeSamples, SamplesIn, Product, Duration, Then, Over, Request.OnTrack, Request.Fits, Request.Lag,
         Request.NotLate, Request.Valid;
    if q[i].End() <= c {
      StaleAtStart(r, q, i, c, m);
      if k > i {
        LeavesOver(r, q, i + 1, c, m, decoded, k);
      }
    } else if c < q[i].start {
      SilenceFits(r, q, i, c, m);
      var silent := CodeSamples(q[i].start - c, r.fs);
      GapOnTrack(r, q, i, c, m, silent);
      LeavesOver(r, q, i, q[i].start, m - silent, i, k);
      OverThen(r, q, Silences(silent), Plan(r, q, i, q[i].start, m - silent), k);
    } else {
      CopyFits(r, q, i, c, m);
      var index := CodeSamples(c - q[i].start, r.fs);
      var left := r.samplesPerFrame - index;
      if k > i {
        LeavesOver(r, q, i + 1, q[i].End(), m - left, i, k);
      } else {
        PlanDone(r, q, i + 1, q[i].End(), m - left);
        assert Samples(i, index, left)[left - 1] == Sample(i, r.samplesPerFrame - 1);
      }
      OverThen(r, q, Samples(i, index, left), Plan(r, q, i + 1, q[i].End(), m - left), k);
    }
  }

  lemma {:induction false} GapOnTrack(r: Request, q: seq<Window>, i: nat, c: int, m: nat, silent: nat)
    requires r.Fits(q) && r.OnTrack(q, i, c, m) && i < |q| && c < q[i].start && silent <= m
    requires r.Lag(q[i].start, m - silent) > -US_PER_S
    ensures r.OnTrack(q, i, q[i].start, m - silent)
  {
    assert forall k :: i <= k < |q| ==> q[i].start <= q[k].start;
    hide Product, Request.Lag;
  }

  lemma {:induction false} OverThen(r: Request, q: seq<Window>, front: seq<Cell>, rest: Outcome, k: nat)
    requires rest.Done? && k < |q|
    requires Over(r, q, rest.cells, k) || (r.samplesPerFrame > 0 && Sample(k, r.samplesPerFrame - 1) in front)
    ensures Then(front, rest).Done? && Over(r, q, Then(front, rest).cells, k)
  {
  }

  /** In a fitting queue packets are stale only before anything is written. */
  lemma {:induction false} StaleAtStart(r: Request, q: seq<Window>, i: nat, c: int, m: nat)
    requires r.Fits(q) && r.OnTrack(q, i, c, m) && i < |q| && q[i].End() <= c
    ensures c == r.t0 && m == r.n && r.OnTrack(q, i + 1, c, m)
  {
    hide Product;
  }

  /** What the callback takes out of the ring is over. */
  lemma {:induction false} TakenIsOver(r: Request, q: seq<Window>, k: nat)
    requires r.Valid() && r.NotLate() && r.Fits(q) && k < LeftBy(r, q).next
    ensures Playback(r, q).Done? && Over(r, q, Playback(r, q).cells, k)
  {
    StartsOnTrack(r, q);
    hide Left, Plan, Duration;
    LeavesOver(r, q, 0, r.t0, r.n, -1, k);
  }
}
