/** When accurate playback plays what: every sample played is due, every silent position has nothing due, and a packet
    that is cut by the end of a buffer goes on in the next one. */
module AccurateTiming {
  import opened Arith
  import opened AccuratePlan

  /** Where the clock stands when packet `i` comes up: the end of its predecessor or the buffer's start. */
  function Cursor(r: Request, q: seq<Window>, i: nat): int
    requires i <= |q|
  {
    if i == 0 || q[i - 1].End() <= r.t0 then r.t0 else q[i - 1].End()
  }

  /** How many of the first `i` packets are preceded by a gap within the buffer. */
  function Gaps(r: Request, q: seq<Window>, i: nat): nat
    requires i <= |q|
  {
    if i == 0 then 0
    else Gaps(r, q, i - 1) + Count(Cursor(r, q, i - 1) < q[i - 1].start)
  }

  /** Due time of a sample minus the time of the buffer position it is played at. */
  function Error(r: Request, q: seq<Window>, packet: nat, index: nat, position: nat): int
    requires packet < |q|
  {
    Product(q[packet].start - r.t0, r.fs) + US_PER_S * index - US_PER_S * position
  }

  /** A cell plays a sample that exists, early by at most one rounding for each gap before its packet and
      late by less than one sample. */
  ghost predicate Faithful(r: Request, q: seq<Window>, cell: Cell, position: nat) {
    cell.Sample? ==>
      && cell.packet < |q|
      && cell.index < r.samplesPerFrame
      && q[cell.packet].start <= r.end
      && -US_PER_S < Error(r, q, cell.packet, cell.index, position)
      && Error(r, q, cell.packet, cell.index, position) <= (US_PER_S - 1) * Gaps(r, q, cell.packet + 1)
  }

  /** The window has ended by then, up to one rounding for each gap. */
  ghost predicate Past(r: Request, w: Window, gaps: nat, position: nat) {
    Product(w.End() - r.t0, r.fs) - US_PER_S * position <= (US_PER_S - 1) * gaps
  }

  ghost predicate Ahead(r: Request, w: Window, position: nat) {
    Product(w.start - r.t0, r.fs) > US_PER_S * position
  }

  /** At this position the first i packets have ended, with the gaps before them, and the others start later. */
  ghost predicate Between(r: Request, q: seq<Window>, i: nat, position: nat) {
    && i <= |q|
    && (forall k :: 0 <= k < i ==> Past(r, q[k], Gaps(r, q, i), position))
    && (forall k :: i <= k < |q| ==> Ahead(r, q[k], position))
  }

  /** A silent position is one for which nothing is due. */
  ghost predicate Justified(r: Request, q: seq<Window>, cell: Cell, position: nat) {
    cell == Silence ==> exists i :: Between(r, q, i, position)
  }

  ghost predicate Sound(r: Request, q: seq<Window>, cell: Cell, position: nat) {
    Faithful(r, q, cell, position) && (r.NotEarly() ==> Justified(r, q, cell, position))
  }

  // ----- what the loop keeps

  /** The number of gaps behind the clock. */
  function GapsAt(r: Request, q: seq<Window>, i: nat, c: int): nat
    requires i <= |q|
  {
    Gaps(r, q, if i < |q| && q[i].start <= c then i + 1 else i)
  }

  /** The clock is where packet `i` comes up, or at its start after a gap; the packets before it have ended. */
  ghost predicate Placed(r: Request, q: seq<Window>, i: nat, c: int) {
    && i <= |q|
    && (c == Cursor(r, q, i) || (i < |q| && c == q[i].start && Cursor(r, q, i) < c <= r.end))
    && forall k :: 0 <= k < i ==> q[k].End() <= c
  }

  ghost predicate Tracked(r: Request, q: seq<Window>, i: nat, c: int, m: nat) {
    && r.Valid() && r.NotLate() && r.Fits(q) && r.OnTrack(q, i, c, m)
    && Placed(r, q, i, c) && r.Lag(c, m) <= (US_PER_S - 1) * GapsAt(r, q, i, c)
  }

  lemma {:induction false} StaleTracked(r: Request, q: seq<Window>, i: nat, c: int, m: nat)
    requires Tracked(r, q, i, c, m) && i < |q| && q[i].End() <= c
    ensures Tracked(r, q, i + 1, c, m)
  {
    hide Gaps, Duration, Product;
    assert c == r.t0 && m == r.n;
    assert r.Lag(c, m) <= 0 by {
      ProductOf(r.fs);
    }
  }

  /** Rounding the silence down costs less than one sample. */
  lemma {:induction false} GapTracked(r: Request, q: seq<Window>, i: nat, c: int, m: nat)
    requires Tracked(r, q, i, c, m) && i < |q| && c < q[i].start <= r.end
    ensures var silent := CodeSamples(q[i].start - c, r.fs);
            silent <= m && Tracked(r, q, i, q[i].start, m - silent)
  {
    SilenceFits(r, q, i, c, m);
    ProductPlus(q[i].start - c, c - r.t0, r.fs);
    assert Gaps(r, q, i + 1) == Gaps(r, q, i) + 1;
    assert forall k :: i <= k < |q| ==> q[i].start <= q[k].start;
    hide Product, Gaps, CodeSamples, Duration, Request.Fits;
  }

  /** After a packet is copied to its end, the lag shrinks by what rounding the start index took. */
  lemma {:induction false} CopyTracked(r: Request, q: seq<Window>, i: nat, c: int, m: nat)
    requires Tracked(r, q, i, c, m) && i < |q| && q[i].start <= c < q[i].End()
    ensures var index := CodeSamples(c - q[i].start, r.fs);
            && index < r.samplesPerFrame
            && (r.samplesPerFrame - index < m ==>
                  Tracked(r, q, i + 1, q[i].End(), m - (r.samplesPerFrame - index)))
  {
    CopyFits(r, q, i, c, m);
    ProductPlus(q[i].duration, q[i].start - r.t0, r.fs);
    ProductPlus(c - q[i].start, q[i].start - r.t0, r.fs);
    GapsMonotone(r, q, i + 1, if i + 1 < |q| && q[i + 1].start <= q[i].End() then i + 2 else i + 1);
    assert Product(q[i].duration, r.fs) == r.samplesPerFrame * US_PER_S;
    assert r.t0 <= c;
    hide Product, Gaps, CodeSamples, Duration;
  }

  lemma {:induction false} GapsMonotone(r: Request, q: seq<Window>, i: nat, j: nat)
    requires i <= j <= |q|
    ensures Gaps(r, q, i) <= Gaps(r, q, j)
  {
    if i < j {
      GapsMonotone(r, q, i, j - 1);
    }
  }

  // ----- the cells of each branch

  /** The cell planned for position `p` of the buffer, once `n - m` positions are written. */
  function CellAt(r: Request, q: seq<Window>, i: nat, c: int, m: nat, p: nat): Cell
    requires i <= |q| && m <= r.n && r.n - m <= p < r.n && Plan(r, q, i, c, m).Done?
  {
    Plan(r, q, i, c, m).cells[p - (r.n - m)]
  }

  /** Copied samples keep the error of the first one. */
  lemma {:induction false} CopyFaithful(r: Request, q: seq<Window>, i: nat, c: int, m: nat, p: nat, x: nat)
    requires Tracked(r, q, i, c, m) && i < |q| && q[i].start <= c < q[i].End() && q[i].start <= r.end
    requires r.n - m <= p && x == CodeSamples(c - q[i].start, r.fs) + p - (r.n - m) < r.samplesPerFrame
    ensures Faithful(r, q, Sample(i, x), p)
  {
    CopyFits(r, q, i, c, m);
    ProductPlus(c - q[i].start, q[i].start - r.t0, r.fs);
    hide Product, Gaps, CodeSamples, Duration;
  }

  /** Everything before packet i is over at position p. */
  lemma {:induction false} Ended(r: Request, q: seq<Window>, i: nat, c: int, m: nat, p: nat, w: Window)
    requires m <= r.n && r.n - m <= p && i <= |q| && r.Lag(c, m) <= (US_PER_S - 1) * Gaps(r, q, i) && w.End() <= c
    ensures Past(r, w, Gaps(r, q, i), p)
  {
    ProductMonotone(w.End() - r.t0, c - r.t0, r.fs);
    hide Product, Gaps;
  }

  lemma {:induction false} Later(r: Request, q: seq<Window>, i: nat, p: nat, k: nat)
    requires r.Fits(q) && i <= k < |q| && Ahead(r, q[i], p)
    ensures Ahead(r, q[k], p)
  {
    assert q[i].start <= q[k].start;
    ProductMonotone(q[i].start - r.t0, q[k].start - r.t0, r.fs);
    hide Product, Request.Fits;
  }

  lemma {:induction false} SilentHere(r: Request, q: seq<Window>, i: nat, c: int, m: nat, p: nat)
    requires Tracked(r, q, i, c, m) && r.n - m <= p && GapsAt(r, q, i, c) == Gaps(r, q, i)
    requires i < |q| ==> Ahead(r, q[i], p)
    ensures Sound(r, q, Silence, p)
  {
    assert m <= r.n;
    hide Product, Gaps, Duration, GapsAt, Past, Ahead, Request.Fits, Request.OnTrack, Request.NotEarly, Request.Lag;
    forall k | 0 <= k < i ensures Past(r, q[k], Gaps(r, q, i), p) {
      Ended(r, q, i, c, m, p, q[k]);
    }
    forall k | i <= k < |q| ensures Ahead(r, q[k], p) {
      Later(r, q, i, p, k);
    }
    assert Between(r, q, i, p);
  }

  /** A packet that is held back starts after every position of the buffer. */
  lemma {:induction false} HeldBack(r: Request, q: seq<Window>, i: nat, c: int, m: nat, p: nat)
    requires Tracked(r, q, i, c, m) && i < |q| && c < q[i].End() && r.end < q[i].start && r.n - m <= p < r.n
    ensures Sound(r, q, Silence, p)
  {
    if r.NotEarly() {
      hide Gaps, Duration;
      ProductMonotone(r.end + 1 - r.t0, q[i].start - r.t0, r.fs);
      assert r.t0 <= r.end by {
        if r.end < r.t0 {
          ProductMonotone(r.end + 1 - r.t0, 0, r.fs);
          ProductOf(r.fs);
          assert false;
        }
      }
      NoGapYet(r, q, i, c);
      hide Product;
      SilentHere(r, q, i, c, m, p);
    }
  }

  lemma {:induction false} NoGapYet(r: Request, q: seq<Window>, i: nat, c: int)
    requires Placed(r, q, i, c) && i < |q| && r.end < q[i].start
    ensures GapsAt(r, q, i, c) == Gaps(r, q, i)
  {
  }

  /** A packet starts after every position of the silence before it. */
  lemma {:induction false} InGap(r: Request, q: seq<Window>, i: nat, c: int, m: nat, p: nat)
    requires Tracked(r, q, i, c, m) && i < |q| && c < q[i].start <= r.end
    requires r.n - m <= p < r.n - m + CodeSamples(q[i].start - c, r.fs)
    ensures Sound(r, q, Silence, p)
  {
    SilenceFits(r, q, i, c, m);
    ProductPlus(q[i].start - c, c - r.t0, r.fs);
    hide Product, Gaps, CodeSamples, Duration;
    SilentHere(r, q, i, c, m, p);
  }

  lemma {:induction false} GapCell(r: Request, q: seq<Window>, i: nat, c: int, m: nat, p: nat, silent: nat)
    requires 0 < m <= r.n && r.n - m <= p < r.n && i < |q| && c < q[i].start <= r.end
    requires silent == CodeSamples(q[i].start - c, r.fs) <= m && Plan(r, q, i, c, m).Done?
    ensures p < r.n - m + silent ==> CellAt(r, q, i, c, m, p) == Silence
    ensures r.n - m + silent <= p ==>
              && Plan(r, q, i, q[i].start, m - silent).Done?
              && CellAt(r, q, i, c, m, p) == CellAt(r, q, i, q[i].start, m - silent, p)
  {
    hide CodeSamples;
  }

  lemma {:induction false} CopyCell(r: Request, q: seq<Window>, i: nat, c: int, m: nat, p: nat, index: nat, left: nat)
    requires 0 < m <= r.n && r.n - m <= p < r.n && i < |q| && q[i].start <= c < q[i].End() && q[i].start <= r.end
    requires index == CodeSamples(c - q[i].start, r.fs) && left == r.samplesPerFrame - index
    requires Plan(r, q, i, c, m).Done?
    ensures p < r.n - m + left ==> CellAt(r, q, i, c, m, p) == Sample(i, index + p - (r.n - m))
    ensures r.n - m + left <= p ==>
              && Plan(r, q, i + 1, q[i].End(), m - left).Done?
              && CellAt(r, q, i, c, m, p) == CellAt(r, q, i + 1, q[i].End(), m - left, p)
  {
    hide CodeSamples;
  }

  lemma {:induction false} RestCell(r: Request, q: seq<Window>, i: nat, c: int, m: nat, p: nat)
    requires 0 < m <= r.n && r.n - m <= p < r.n && i <= |q| && Plan(r, q, i, c, m).Done?
    requires i == |q| || (c < q[i].End() && r.end < q[i].start)
    ensures CellAt(r, q, i, c, m, p) == Silence
  {
  }

  lemma {:induction false} StaleCell(r: Request, q: seq<Window>, i: nat, c: int, m: nat, p: nat)
    requires 0 < m <= r.n && r.n - m <= p < r.n && i < |q| && q[i].End() <= c && Plan(r, q, i, c, m).Done?
    ensures Plan(r, q, i + 1, c, m).Done? && CellAt(r, q, i, c, m, p) == CellAt(r, q, i + 1, c, m, p)
  {
    hide CodeSamples;
  }

  lemma {:induction false} TrackedBounds(r: Request, q: seq<Window>, i: nat, c: int, m: nat)
    requires Tracked(r, q, i, c, m)
    ensures r.Valid() && r.NotLate() && r.Fits(q) && r.OnTrack(q, i, c, m) && i <= |q| && m <= r.n
  {
  }

  /** The loop is on its way to a sound cell at position p. */
  ghost predicate SoundAt(r: Request, q: seq<Window>, i: nat, c: int, m: nat, p: nat) {
    && i <= |q| && m <= r.n && r.n - m <= p < r.n && Plan(r, q, i, c, m).Done?
    && Sound(r, q, CellAt(r, q, i, c, m, p), p)
  }

  lemma {:induction false} StaleSound(r: Request, q: seq<Window>, i: nat, c: int, m: nat, p: nat)
    requires Tracked(r, q, i, c, m) && i < |q| && q[i].End() <= c && Plan(r, q, i, c, m).Done?
    requires SoundAt(r, q, i + 1, c, m, p)
    ensures SoundAt(r, q, i, c, m, p)
  {
    hide Tracked, Sound, Plan, CellAt;
    StaleCell(r, q, i, c, m, p);
  }

  lemma {:induction false} GapSound(r: Request, q: seq<Window>, i: nat, c: int, m: nat, p: nat, silent: nat)
    requires Tracked(r, q, i, c, m) && i < |q| && c < q[i].start <= r.end && Plan(r, q, i, c, m).Done?
    requires m <= r.n && r.n - m <= p < r.n && silent == CodeSamples(q[i].start - c, r.fs) <= m
    requires r.n - m + silent <= p ==> SoundAt(r, q, i, q[i].start, m - silent, p)
    ensures SoundAt(r, q, i, c, m, p)
  {
    hide Tracked, Sound, Plan, CellAt, CodeSamples;
    GapCell(r, q, i, c, m, p, silent);
    if p < r.n - m + silent {
      InGap(r, q, i, c, m, p);
    }
  }

  lemma {:induction false} CopyStepSound(r: Request, q: seq<Window>, i: nat, c: int, m: nat, p: nat, index: nat,
                                         left: nat)
    requires Tracked(r, q, i, c, m) && i < |q| && q[i].start <= c < q[i].End() && q[i].start <= r.end
    requires Plan(r, q, i, c, m).Done? && m <= r.n && r.n - m <= p < r.n
    requires index == CodeSamples(c - q[i].start, r.fs) && left == r.samplesPerFrame - index
    requires r.n - m + left <= p ==> SoundAt(r, q, i + 1, q[i].End(), m - left, p)
    ensures SoundAt(r, q, i, c, m, p)
  {
    hide Tracked, Sound, Plan, CellAt, CodeSamples;
    CopyCell(r, q, i, c, m, p, index, left);
    if p < r.n - m + left {
      CopySound(r, q, i, c, m, p, index + p - (r.n - m));
    }
  }

  lemma {:induction false} PlanSound(r: Request, q: seq<Window>, i: nat, c: int, m: nat, p: nat)
    requires Tracked(r, q, i, c, m) && r.n - m <= p < r.n
    ensures SoundAt(r, q, i, c, m, p)
    decreases |q| - i, if i < |q| && c < q[i].start then 1 else 0
  {
    hide *;
    TrackedBounds(r, q, i, c, m);
    PlanDone(r, q, i, c, m);
    if i == |q| || (c < q[i].End() && r.end < q[i].start) {
      RestSound(r, q, i, c, m, p);
    } else if q[i].End() <= c {
      StaleTracked(r, q, i, c, m);
      PlanSound(r, q, i + 1, c, m, p);
      StaleSound(r, q, i, c, m, p);
    } else if c < q[i].start {
      var silent := CodeSamples(q[i].start - c, r.fs);
      GapTracked(r, q, i, c, m);
      if r.n - m + silent <= p {
        PlanSound(r, q, i, q[i].start, m - silent, p);
      }
      GapSound(r, q, i, c, m, p, silent);
    } else {
      CopyTracked(r, q, i, c, m);
      var index := CodeSamples(c - q[i].start, r.fs);
      var left := r.samplesPerFrame - index;
      if r.n - m + left <= p {
        PlanSound(r, q, i + 1, q[i].End(), m - left, p);
      }
      CopyStepSound(r, q, i, c, m, p, index, left);
    }
  }

  lemma {:induction false} RestSound(r: Request, q: seq<Window>, i: nat, c: int, m: nat, p: nat)
    requires Tracked(r, q, i, c, m) && m <= r.n && r.n - m <= p < r.n && i <= |q| && Plan(r, q, i, c, m).Done?
    requires i == |q| || (c < q[i].End() && r.end < q[i].start)
    ensures SoundAt(r, q, i, c, m, p)
  {
    RestCell(r, q, i, c, m, p);
    hide Plan, CellAt;
    if i == |q| {
      hide Tracked, Sound, Gaps;
      SilentHere(r, q, i, c, m, p);
    } else {
      HeldBack(r, q, i, c, m, p);
    }
  }

  lemma {:induction false} CopySound(r: Request, q: seq<Window>, i: nat, c: int, m: nat, p: nat, x: nat)
    requires Tracked(r, q, i, c, m) && i < |q| && q[i].start <= c < q[i].End() && q[i].start <= r.end
    requires r.n - m <= p && x == CodeSamples(c - q[i].start, r.fs) + p - (r.n - m) < r.samplesPerFrame
    ensures Sound(r, q, Sample(i, x), p)
  {
    hide Faithful, Tracked;
    CopyFaithful(r, q, i, c, m, p, x);
  }

  lemma {:induction false} StartsTracked(r: Request, q: seq<Window>)
    requires r.Valid() && r.NotLate() && r.Fits(q)
    ensures Tracked(r, q, 0, r.t0, r.n)
  {
    ProductOf(r.fs);
    hide Duration;
  }

  /** Time-faithfulness of the whole callback: every sample that is played is less than one sample late
      and at most one rounding early for each gap in front of its packet. */
  lemma {:induction false} TimeFaithful(r: Request, q: seq<Window>, p: nat)
    requires r.Valid() && r.NotLate() && r.Fits(q) && p < r.n
    ensures Playback(r, q).Done? && Faithful(r, q, Playback(r, q).cells[p], p)
  {
    hide Product, Gaps, Duration, CodeSamples;
    StartsTracked(r, q);
    PlanSound(r, q, 0, r.t0, r.n, p);
  }

  /** No needless silence in the whole callback, if the end time is not early. */
  lemma {:induction false} SilenceJustified(r: Request, q: seq<Window>, p: nat)
    requires r.Valid() && r.NotLate() && r.NotEarly() && r.Fits(q) && p < r.n
    ensures Playback(r, q).Done? && Justified(r, q, Playback(r, q).cells[p], p)
  {
    hide Product, Gaps, Duration, CodeSamples;
    StartsTracked(r, q);
    PlanSound(r, q, 0, r.t0, r.n, p);
  }

  // ----- consecutive callbacks

  /** Packets that have ended when the buffer starts do not matter. */
  lemma {:induction false} StaleIrrelevant(r: Request, q: seq<Window>, i: nat, k: nat, m: nat)
    requires i <= k <= |q| && forall j :: i <= j < k ==> q[j].End() <= r.t0
    ensures Plan(r, q, i, r.t0, m) == Plan(r, q, k, r.t0, m)
    decreases k - i
  {
    hide CodeSamples;
    if i < k {
      StaleIrrelevant(r, q, i + 1, k, m);
    }
  }

  /** Where the next callback goes on with a packet whose sample x was the last one of this callback: it never skips
      a sample, and goes back by at most one sample and one for each gap. */
  lemma {:induction false} ResumesAt(r: Request, q: seq<Window>, k: nat, x: nat)
    requires r.Valid() && r.fs <= US_PER_S && r.n > 0 && r.Fits(q) && r.NotLate() && x + 1 < r.samplesPerFrame
    requires Faithful(r, q, Sample(k, x), r.n - 1)
    ensures q[k].start <= r.End() < q[k].End()
    ensures var y := CodeSamples(r.End() - q[k].start, r.fs);
            x - Gaps(r, q, k + 1) <= y <= x + 1
  {
    var w, d := q[k], Duration(r.n, r.fs);
    DurationBounds(r.n, r.fs);
    ProductPlus(d, 1, r.fs);
    ProductOf(r.fs);
    ProductPlus(r.End() - w.start, w.start - r.t0, r.fs);
    assert (r.End() - w.start) + (w.start - r.t0) == d;
    assert Product(w.duration, r.fs) == r.samplesPerFrame * US_PER_S;
    if w.duration <= r.End() - w.start {
      ProductMonotone(w.duration, r.End() - w.start, r.fs);
      assert false;
    }
    ProductMonotone(r.End() - w.start, w.duration, r.fs);
    hide Product, Gaps, Duration, Request.Fits;
    CodeExact(r.End() - w.start, r.fs);
    hide CodeSamples;
  }

  lemma {:induction false} FirstCell(r: Request, q: seq<Window>, k: nat)
    requires r.n > 0 && k < |q| && q[k].start <= r.t0 < q[k].End() && q[k].start <= r.end
    requires Plan(r, q, k, r.t0, r.n).Done?
    requires CodeSamples(r.t0 - q[k].start, r.fs) < r.samplesPerFrame
    ensures Plan(r, q, k, r.t0, r.n).cells[0] == Sample(k, CodeSamples(r.t0 - q[k].start, r.fs))
  {
    hide CodeSamples;
  }
}
