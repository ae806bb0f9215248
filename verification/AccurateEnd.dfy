/** The end time of accurate playback is cached for a number of samples and survives a change of the sampling frequency:
    which end times work, for every fitting queue. */
module AccurateEnd {
  import opened Arith
  import opened AccuratePlan
  import opened AccurateTiming

  /** Sampling frequencies whose frames last a whole number of microseconds. */
  predicate Supported(fs: nat) {
    fs == 8000 || fs == 16000 || fs == 24000 || fs == 32000 || fs == 48000
  }

  /** A time that is just longer than a whole number of samples. */
  function Cut(fs: nat): nat
    requires Supported(fs)
  {
    if fs == 8000 then 1 else if fs == 16000 then 63 else if fs == 24000 then 42 else if fs == 32000 then 94 else 21
  }

  function WholeSamples(fs: nat): (f: nat)
    requires Supported(fs)
    ensures f <= 3
  {
    if fs == 8000 then 0 else if fs == 32000 then 3 else 1
  }

  lemma {:induction false} CutProduct(fs: nat)
    requires Supported(fs)
    ensures Product(Cut(fs), fs) == WholeSamples(fs) * US_PER_S + 8000
  {
  }

  /** Five samples last longer. */
  lemma {:induction false} CutShort(n: nat, fs: nat)
    requires Supported(fs) && n >= 5
    ensures Cut(fs) <= Duration(n, fs)
  {
  }

  /** Times are multiples of 8000 millionths of a sample. */
  lemma {:induction false} Grid(us: nat, fs: nat, n: nat)
    requires Supported(fs) && Product(us, fs) > n * US_PER_S
    ensures Product(us, fs) >= n * US_PER_S + 8000
  {
    assert Product(us, fs) == us * (fs / 8000) * 8000;
    assert n * US_PER_S == n * 125 * 8000;
  }

  /** A packet that is cut by the start of the buffer, and one that starts just behind its end. */
  function Straddling(r: Request, d: nat): seq<Window>
    requires Supported(r.fs)
  {
    [Window(r.t0 + Cut(r.fs) - d, d), Window(r.End() + 1, d)]
  }

  /** Where a packet that ends that long after the start of the buffer comes in. */
  lemma {:induction false} CutIndex(r: Request, d: nat)
    requires r.Valid() && Supported(r.fs) && d >= 100 && Product(d, r.fs) == r.samplesPerFrame * US_PER_S
    ensures CodeSamples(d - Cut(r.fs), r.fs) == r.samplesPerFrame - (WholeSamples(r.fs) + 1)
  {
    var us := d - Cut(r.fs);
    CutProduct(r.fs);
    ProductPlus(us, Cut(r.fs), r.fs);
    hide Product;
    CodeExact(us, r.fs);
  }

  lemma {:induction false} FirstPart(r: Request, d: nat)
    requires r.Valid() && Supported(r.fs) && r.n >= 5 && d >= 100 && r.end > r.End()
    requires Product(d, r.fs) == r.samplesPerFrame * US_PER_S
    ensures var q, f := Straddling(r, d), WholeSamples(r.fs);
            Plan(r, q, 0, r.t0, r.n) ==
            Then(Samples(0, r.samplesPerFrame - (f + 1), f + 1), Plan(r, q, 1, r.t0 + Cut(r.fs), r.n - (f + 1)))
  {
    hide CodeSamples, Product, Duration;
    CutIndex(r, d);
    assert r.t0 - Straddling(r, d)[0].start == d - Cut(r.fs);
  }

  lemma {:induction false} SecondPart(r: Request, d: nat)
    requires r.Valid() && Supported(r.fs) && r.n >= 5 && d >= 100 && r.end > r.End()
    ensures Plan(r, Straddling(r, d), 1, r.t0 + Cut(r.fs), r.n - (WholeSamples(r.fs) + 1)) == Overrun
  {
    var q, f, c, D := Straddling(r, d), WholeSamples(r.fs), r.t0 + Cut(r.fs), Duration(r.n, r.fs);
    CutProduct(r.fs);
    DurationBounds(r.n, r.fs);
    Grid(D + 1, r.fs, r.n);
    ProductPlus(D, 1, r.fs);
    ProductOf(r.fs);
    CutShort(r.n, r.fs);
    var us := D + 1 - Cut(r.fs);
    ProductPlus(us, Cut(r.fs), r.fs);
    assert q[1].start - c == us;
    hide Product, Duration;
    CodeExact(us, r.fs);
    assert SamplesIn(us, r.fs) >= r.n - f;
    hide CodeSamples, SamplesIn;
  }

  lemma {:induction false} StraddlingFits(r: Request, d: nat)
    requires r.Valid() && Supported(r.fs) && r.n >= 5 && d >= 100
    requires Product(d, r.fs) == r.samplesPerFrame * US_PER_S
    ensures r.Fits(Straddling(r, d))
  {
    var D := Duration(r.n, r.fs);
    CutProduct(r.fs);
    DurationBounds(r.n, r.fs);
    CutShort(r.n, r.fs);
    hide Product, Duration;
  }

  /** With any later end there is a fitting queue for which silence is written past the buffer. */
  lemma {:induction false} LateOverruns(r: Request, d: nat)
    requires r.Valid() && Supported(r.fs) && r.n >= 5 && d >= 100 && !r.NotLate()
    requires Product(d, r.fs) == r.samplesPerFrame * US_PER_S
    ensures r.Fits(Straddling(r, d)) && Playback(r, Straddling(r, d)) == Overrun
  {
    hide Plan, Duration, Product;
    StraddlingFits(r, d);
    FirstPart(r, d);
    SecondPart(r, d);
  }

  /** The end times for which no fitting queue overruns the buffer are exactly those that are not late. */
  lemma {:induction false} NoOverrunExactly(r: Request, d: nat)
    requires r.Valid() && Supported(r.fs) && r.n >= 5 && d >= 100
    requires Product(d, r.fs) == r.samplesPerFrame * US_PER_S
    ensures (forall q :: r.Fits(q) ==> Playback(r, q).Done?) <==> r.NotLate()
  {
    assert r.fs > 0;
    hide *;
    if r.NotLate() {
      forall q | r.Fits(q) ensures Playback(r, q).Done? {
        PlaybackDone(r, q);
      }
    } else {
      LateOverruns(r, d);
    }
  }

  // ----- ends that are early

  /** A packet that starts just after an early end is held back although it is due. */
  lemma {:induction false} EarlyWithholds(r: Request, d: nat) returns (p: nat)
    requires r.Valid() && r.t0 <= r.end && !r.NotEarly() && d > 0 && r.samplesPerFrame >= 2
    requires Product(d, r.fs) == r.samplesPerFrame * US_PER_S
    ensures var q := [Window(r.end + 1, d)];
            && r.Fits(q) && p < r.n && Playback(r, q).Done? && !Justified(r, q, Playback(r, q).cells[p], p)
  {
    var q, x := [Window(r.end + 1, d)], Product(r.end + 1 - r.t0, r.fs);
    ProductPlus(r.end + 1 - r.t0, d, r.fs);
    assert q[0].End() - r.t0 == r.end + 1 - r.t0 + d;
    p := (x + US_PER_S - 1) / US_PER_S;
    assert Playback(r, q) == Done(Silences(r.n));
    assert Gaps(r, q, 0) == 0 && Gaps(r, q, 1) <= 1;
    hide Product, Gaps, Plan;
    assert !Ahead(r, q[0], p) && !Past(r, q[0], Gaps(r, q, 1), p);
    forall i: nat ensures !Between(r, q, i, p) {
      if i == 0 {
        assert !Ahead(r, q[i], p);
      } else if i == 1 {
        assert !Past(r, q[0], Gaps(r, q, i), p);
      }
    }
  }

  ghost predicate FilledAsDue(r: Request, q: seq<Window>, p: nat) {
    p < r.n ==> Playback(r, q).Done? && Justified(r, q, Playback(r, q).cells[p], p)
  }

  ghost predicate NeverNeedless(r: Request) {
    forall q, p: nat :: r.Fits(q) ==> FilledAsDue(r, q, p)
  }

  /** The end times for which no fitting queue has needless silence are exactly those that are not early. */
  lemma {:induction false} NoNeedlessSilenceExactly(r: Request, d: nat)
    requires r.Valid() && r.NotLate() && r.t0 <= r.end && d > 0 && r.samplesPerFrame >= 2
    requires Product(d, r.fs) == r.samplesPerFrame * US_PER_S
    ensures NeverNeedless(r) <==> r.NotEarly()
  {
    hide Product, Duration, Playback, Justified, Request.Fits, Request.NotEarly, Request.NotLate;
    if r.NotEarly() {
      forall q, p: nat | r.Fits(q) ensures FilledAsDue(r, q, p) {
        if p < r.n {
          SilenceJustified(r, q, p);
        }
      }
    } else {
      var p := EarlyWithholds(r, d);
      var q := [Window(r.end + 1, d)];
      assert !FilledAsDue(r, q, p);
    }
  }

  // ----- a change of the sampling frequency

  lemma {:induction false} Scaled(d: nat, fs: nat, other: nat)
    requires 4 * fs <= 3 * other
    ensures 4 * Product(d, fs) <= 3 * Product(d, other)
  {
    ProductMonotone(4 * fs, 3 * other, d);
    assert Product(4 * fs, d) == 4 * Product(d, fs) && Product(3 * other, d) == 3 * Product(d, other);
  }

  /** At a higher frequency as many samples take less time, by more than a sample. */
  lemma {:induction false} ShorterAtHigher(n: nat, fs: nat, other: nat)
    requires Supported(fs) && Supported(other) && n >= 5 && fs < other
    ensures Product(Duration(n, other) + 1, fs) <= US_PER_S * (n - 1) && Duration(n, other) < Duration(n, fs)
  {
    var d := Duration(n, other);
    DurationBounds(n, fs);
    DurationBounds(n, other);
    Scaled(d, fs, other);
    ProductPlus(d, 1, fs);
    ProductOf(fs);
    hide Product, Duration;
    ProductBelow(d + 1, Duration(n, fs) + 1, fs);
  }

  lemma {:induction false} EndOfDuration(r: Request, cachedAt: nat)
    requires Supported(r.fs) && Supported(cachedAt) && r.n >= 5 && r.end == r.t0 + Duration(r.n, cachedAt)
    ensures r.NotLate() <==> r.fs <= cachedAt
    ensures r.NotLate() && r.NotEarly() <==> r.fs == cachedAt
  {
    DurationBounds(r.n, r.fs);
    assert r.end + 1 - r.t0 == Duration(r.n, cachedAt) + 1;
    hide Duration, Product;
    if r.fs < cachedAt {
      ShorterAtHigher(r.n, r.fs, cachedAt);
    } else if cachedAt < r.fs {
      ShorterAtHigher(r.n, cachedAt, r.fs);
    }
  }

  lemma {:induction false} OverrunIsNoFill(r: Request, q: seq<Window>)
    requires r.Fits(q) && r.n > 0 && !Playback(r, q).Done?
    ensures !NeverNeedless(r)
  {
    assert !FilledAsDue(r, q, 0);
  }

  /** A buffer duration that was cached at another frequency for as many samples: no queue overruns exactly if the
      frequency did not rise, and no queue is held back needlessly either exactly if it did not change. */
  lemma {:induction false} StaleDuration(r: Request, cachedAt: nat, d: nat)
    requires r.Valid() && Supported(r.fs) && Supported(cachedAt) && r.n >= 5 && d >= 100 && r.samplesPerFrame >= 2
    requires Product(d, r.fs) == r.samplesPerFrame * US_PER_S && r.end == r.t0 + Duration(r.n, cachedAt)
    ensures (forall q :: r.Fits(q) ==> Playback(r, q).Done?) <==> r.fs <= cachedAt
    ensures NeverNeedless(r) <==> r.fs == cachedAt
  {
    assert r.fs > 0;
    hide *;
    EndOfDuration(r, cachedAt);
    NoOverrunExactly(r, d);
    if r.fs <= cachedAt {
      NoNeedlessSilenceExactly(r, d);
    } else {
      LateOverruns(r, d);
      OverrunIsNoFill(r, Straddling(r, d));
    }
  }

  // ----- windows that overlap

  /** The windows have the configured length, and none reaches more than `o` microseconds into a later one. */
  ghost predicate Overlapping(r: Request, q: seq<Window>, o: nat) {
    && (forall i :: 0 <= i < |q| ==> 0 < q[i].duration && Product(q[i].duration, r.fs) == r.samplesPerFrame * US_PER_S)
    && (forall i, j :: 0 <= i < j < |q| ==> q[i].End() <= q[j].start + o)
  }

  /** A packet that is cut by the start of the buffer, one that overlaps it by 1 us, and one at the end. */
  function Touching(r: Request, d: nat): seq<Window>
    requires Supported(r.fs)
  {
    var b := Cut(r.fs);
    [Window(r.t0 + b - d, d), Window(r.t0 + b - 1, d), Window(r.end, d)]
  }

  /** A buffer that lasts a whole number of microseconds, longer than a frame. */
  ghost predicate WholeBuffer(r: Request, d: nat) {
    && r.Valid() && Supported(r.fs) && d >= 100 && Product(d, r.fs) == r.samplesPerFrame * US_PER_S
    && r.n > r.samplesPerFrame + 5 && r.end == r.End() && Product(r.end - r.t0, r.fs) == r.n * US_PER_S
  }

  lemma {:induction false} LongEnough(r: Request, d: nat)
    requires WholeBuffer(r, d)
    ensures d + Cut(r.fs) <= r.end - r.t0
  {
    CutProduct(r.fs);
    ProductPlus(d, Cut(r.fs), r.fs);
    hide Product, Duration, Supported, Cut;
    ProductBelow(d + Cut(r.fs), r.end - r.t0, r.fs);
  }

  lemma {:induction false} FirstTouch(r: Request, d: nat)
    requires WholeBuffer(r, d)
    ensures var q, f := Touching(r, d), WholeSamples(r.fs);
            Plan(r, q, 0, r.t0, r.n) ==
            Then(Samples(0, r.samplesPerFrame - (f + 1), f + 1), Plan(r, q, 1, r.t0 + Cut(r.fs), r.n - (f + 1)))
  {
    hide CodeSamples, Product, Duration;
    LongEnough(r, d);
    CutIndex(r, d);
    assert r.t0 - Touching(r, d)[0].start == d - Cut(r.fs);
  }

  lemma {:induction false} SecondTouch(r: Request, d: nat)
    requires WholeBuffer(r, d)
    ensures var q, b, m := Touching(r, d), Cut(r.fs), r.n - (WholeSamples(r.fs) + 1);
            Plan(r, q, 1, r.t0 + b, m) ==
            Then(Samples(1, 0, r.samplesPerFrame), Plan(r, q, 2, r.t0 + b - 1 + d, m - r.samplesPerFrame))
  {
    LongEnough(r, d);
    ProductOf(r.fs);
    hide Product, Duration;
    CodeExact(1, r.fs);
    assert SamplesIn(1, r.fs) == 0;
    hide CodeSamples, SamplesIn;
  }

  lemma {:induction false} ThirdTouch(r: Request, d: nat)
    requires WholeBuffer(r, d)
    ensures Plan(r, Touching(r, d), 2, r.t0 + Cut(r.fs) - 1 + d, r.n - (WholeSamples(r.fs) + 1) - r.samplesPerFrame)
            == Overrun
  {
    var q, f, c := Touching(r, d), WholeSamples(r.fs), r.t0 + Cut(r.fs) - 1 + d;
    LongEnough(r, d);
    CutProduct(r.fs);
    var us := r.end - c;
    ProductPlus(us, d, r.fs);
    ProductPlus(us + d, Cut(r.fs), r.fs);
    ProductPlus(us + d + Cut(r.fs), -1, r.fs);
    ProductOf(r.fs);
    assert Product(-1, r.fs) + r.fs == 0 && us + d + Cut(r.fs) - 1 == r.end - r.t0;
    hide Product, Duration;
    CodeExact(us, r.fs);
    assert SamplesIn(us, r.fs) >= r.n - f - r.samplesPerFrame;
    hide CodeSamples, SamplesIn;
  }

  lemma {:induction false} TouchingOverruns(r: Request, d: nat)
    requires WholeBuffer(r, d)
    ensures Overlapping(r, Touching(r, d), 1) && Playback(r, Touching(r, d)) == Overrun
  {
    LongEnough(r, d);
    hide Plan, Duration, Product;
    FirstTouch(r, d);
    SecondTouch(r, d);
    ThirdTouch(r, d);
  }

  lemma {:induction false} LooserOverlap(r: Request, q: seq<Window>, o: nat)
    requires Overlapping(r, q, 1) && o >= 1
    ensures Overlapping(r, q, o)
  {
  }

  lemma {:induction false} NoOverlapFits(r: Request, q: seq<Window>)
    ensures Overlapping(r, q, 0) <==> r.Fits(q)
  {
  }

  /** The overlap for which no queue overruns the buffer is exactly none at all. */
  lemma {:induction false} NoOverlapExactly(r: Request, d: nat, o: nat)
    requires WholeBuffer(r, d)
    ensures (forall q :: Overlapping(r, q, o) ==> Playback(r, q).Done?) <==> o == 0
  {
    if o == 0 {
      assert r.Valid() && r.NotLate();
      hide *;
      forall q | Overlapping(r, q, o) ensures Playback(r, q).Done? {
        NoOverlapFits(r, q);
        PlaybackDone(r, q);
      }
    } else {
      assert Supported(r.fs);
      hide *;
      TouchingOverruns(r, d);
      LooserOverlap(r, Touching(r, d), o);
    }
  }

  // ----- examples

  /** An example: 480 samples cached at 16 kHz, then 48 kHz. A packet 20 ms after the start of the 10 ms buffer is let
      through, and 960 silent samples are written in front of it. */
  lemma {:induction false} StaleOverruns(t0: int)
    ensures var r, q := Request(48000, 480, t0, 480, t0 + Duration(480, 16000)), [Window(t0 + 20000, 10000)];
            && r.Valid() && r.Fits(q) && r.End() == t0 + 10000
            && CodeSamples(20000, 48000) == 960 && Playback(r, q) == Overrun
  {
    var r, q := Request(48000, 480, t0, 480, t0 + Duration(480, 16000)), [Window(t0 + 20000, 10000)];
    assert CodeSamples(20000, 48000) == 960;
    hide CodeSamples;
  }

  /** 44.1 kHz: packets of 480 samples follow each other every 10884 us, but their windows are 10000 us long. The loop
      copies the whole packet and then writes silence for the 884 us as well, so of the buffers that begin with a packet
      and end in the next one exactly those overrun that have no room for these 38 samples. */
  lemma {:induction false} LongFramesOverrun(t0: int, n: nat)
    requires 480 < n < 960
    ensures var r := Request(44100, 480, t0, n, t0 + Duration(n, 44100));
            var q := [Window(t0, 10000), Window(t0 + 10884, 10000)];
            && r.Valid() && r.end == r.End()
            && Playback(r, q) == if n < 518 then Overrun
                                 else Done(Samples(0, 0, 480) + (Silences(38) + Samples(1, 0, n - 518)))
  {
    var r := Request(44100, 480, t0, n, t0 + Duration(n, 44100));
    var q := [Window(t0, 10000), Window(t0 + 10884, 10000)];
    assert CodeSamples(0, 44100) == 0 && CodeSamples(884, 44100) == 38;
    assert r.end >= t0 + 10884;
    hide CodeSamples, Duration;
    assert n >= 518 ==> Plan(r, q, 1, t0 + 10884, n - 518) == Done(Samples(1, 0, n - 518));
    assert Plan(r, q, 1, t0 + 10000, n - 480) ==
           if n < 518 then Overrun else Done(Silences(38) + Samples(1, 0, n - 518));
    assert Plan(r, q, 0, t0, n) == Then(Samples(0, 0, 480), Plan(r, q, 1, t0 + 10000, n - 480));
  }

  /** An example of overlap: a window that reaches into the buffer and one that overlaps it by 20 us make the loop run
      almost two samples ahead, and the silence before a third one exceeds the one sample owed. */
  lemma {:induction false} OverlapOverruns()
    ensures var r := Request(48000, 480, 1000, 961, 21020);
            var q := [Window(980, 10000), Window(10960, 10000), Window(21020, 10000)];
            r.Valid() && r.end == r.End() && Playback(r, q) == Overrun
  {
    var r := Request(48000, 480, 1000, 961, 21020);
    var q := [Window(980, 10000), Window(10960, 10000), Window(21020, 10000)];
    assert CodeSamples(20, 48000) == 0 && CodeSamples(60, 48000) == 2;
    hide CodeSamples;
    assert Plan(r, q, 2, 20960, 1) == Overrun;
    assert Plan(r, q, 1, 10980, 481) == Then(Samples(1, 0, 480), Plan(r, q, 2, 20960, 1));
    assert Plan(r, q, 0, 1000, 961) == Then(Samples(0, 0, 480), Plan(r, q, 1, 10980, 481));
  }
}
