/** The linear resampler of src/btstack_resample.c. Positions are fixed point with 16 fractional bits, relative
    to the start of the current block; the frame before the block is remembered, so positions start at -1. */
module Resampler {
  import opened Arith

  const ONE: int := 0x10000
  const MAX_STEP: int := 0x4000_0000

  type Frame = seq<int>

  function I16(x: int): int {
    var r := x % 0x1_0000;
    if r < 0x8000 then r else r - 0x1_0000
  }

  predicate IsInt16(x: int) { -0x8000 <= x < 0x8000 }

  /** Weighted mean of two samples, rounded down. */
  function Interpolate(s1: int, s2: int, t: int): int {
    (s1 * (ONE - t) + s2 * t) / ONE
  }

  /** The weighted sum stays between the two samples. */
  lemma {:induction false} MeanBounds(s1: int, s2: int, t: int)
    requires 0 <= t < ONE
    ensures var v := s1 * (ONE - t) + s2 * t;
            (s1 <= s2 ==> s1 * ONE <= v <= s2 * ONE) && (s2 <= s1 ==> s2 * ONE <= v <= s1 * ONE)
  {
    var v, d := s1 * (ONE - t) + s2 * t, s2 - s1;
    assert s1 * (ONE - t) == s1 * ONE - s1 * t;
    assert s2 * t == s1 * t + d * t;
    if d >= 0 {
      MulBounds(d, t);
    } else {
      MulBounds(-d, t);
      assert (-d) * t == -(d * t);
    }
  }

  lemma {:induction false} MulBounds(d: int, t: int)
    requires 0 <= d && 0 <= t < ONE
    ensures 0 <= d * t <= d * ONE
  {
  }

  lemma {:induction false} WrapShift(v: int)
    requires -0x8000_0000 <= v < 0x8000_0000
    ensures I16(U32(v) / ONE) == v / ONE
  {
    if v >= 0 {
      assert U32(v) == v;
    } else {
      assert U32(v) == v + 0x1_0000_0000;
      assert (v + 0x1_0000_0000) / ONE == v / ONE + 0x1_0000;
    }
  }

  /** Shifting the wrapped sum right by 16 bits and cutting to 16 bits is division rounding down. */
  lemma {:induction false} WrapExact(a: int, b: int)
    requires -0x8000_0000 <= a + b < 0x8000_0000
    ensures I16(U32(U32(a) + b) / ONE) == (a + b) / ONE
  {
    hide U32, I16;
    WordPlus(a, b);
    WrapShift(a + b);
  }

  /** The unsigned 32 bit arithmetic of the source computes the rounded mean, which never overshoots. */
  lemma {:induction false} InterpolateExact(s1: int, s2: int, t: int)
    requires IsInt16(s1) && IsInt16(s2) && 0 <= t < ONE
    ensures I16(U32(U32(s1 * (ONE - t)) + s2 * t) / ONE) == Interpolate(s1, s2, t)
    ensures s1 <= Interpolate(s1, s2, t) <= s2 || s2 <= Interpolate(s1, s2, t) <= s1
  {
    hide U32, I16;
    MeanBounds(s1, s2, t);
    WrapExact(s1 * (ONE - t), s2 * t);
  }

  // ----- how many frames a block yields, whatever its samples are

  /** Frames produced for a block of `n` frames, starting at position `p`. */
  function Outputs(n: nat, p: int, step: nat): nat
    requires n > 0 && step > 0
    decreases (n - 1) * ONE - p
  {
    if p >= (n - 1) * ONE then 0 else 1 + Outputs(n, p + step, step)
  }

  /** Position left for the next block. */
  function EndPosition(n: nat, p: int, step: nat): int
    requires n > 0 && step > 0
    decreases (n - 1) * ONE - p
  {
    if p >= (n - 1) * ONE then p - n * ONE else EndPosition(n, p + step, step)
  }

  /** Every output advances the position by one step and every input takes one frame off it: nothing is lost
      between blocks. */
  lemma {:induction false} PositionConserved(n: nat, p: int, step: nat)
    requires n > 0 && step > 0
    ensures EndPosition(n, p, step) == p + Product(Outputs(n, p, step), step) - n * ONE
    ensures EndPosition(n, p, step) >= -ONE
    ensures Outputs(n, p, step) > 0 ==> EndPosition(n, p, step) < step - ONE
    decreases (n - 1) * ONE - p
  {
    if p < (n - 1) * ONE {
      PositionConserved(n, p + step, step);
      ProductNext(Outputs(n, p + step, step), step);
    } else {
      ProductOf(step);
    }
    hide Product;
  }

  /** At the neutral step frames come out as they are; the first block leaves its last frame for the next one. */
  lemma {:induction false} NeutralStep(n: nat, i: int)
    requires n > 0 && -1 <= i < n
    ensures Outputs(n, i * ONE, ONE) == n - 1 - i && EndPosition(n, i * ONE, ONE) == -ONE
    decreases n - i
  {
    if i < n - 1 {
      NeutralStep(n, i + 1);
    }
  }

  /** btstack_resample_get_min_factor_for_output_capacity: the least factor that covers the input. */
  function MinFactor(inputFrames: nat, outputCapacity: nat): (f: nat)
    requires outputCapacity > 0
    ensures Product(f, outputCapacity) >= inputFrames * ONE
    ensures forall g: nat :: Product(g, outputCapacity) >= inputFrames * ONE ==> f <= g
    ensures inputFrames > 0 ==> f > 0
  {
    LeastFactor(inputFrames, outputCapacity);
    (inputFrames * ONE + outputCapacity - 1) / outputCapacity
  }

  lemma {:induction false} LeastFactor(inputFrames: nat, outputCapacity: nat)
    requires outputCapacity > 0
    ensures var f := (inputFrames * ONE + outputCapacity - 1) / outputCapacity;
            && Product(f, outputCapacity) >= inputFrames * ONE
            && forall g: nat :: Product(g, outputCapacity) >= inputFrames * ONE ==> f <= g
  {
    var x := inputFrames * ONE + outputCapacity - 1;
    var f := x / outputCapacity;
    assert x == f * outputCapacity + x % outputCapacity;
    assert Product(f, outputCapacity) <= x < Product(f, outputCapacity) + outputCapacity;
    hide Product;
    forall g: nat | Product(g, outputCapacity) >= inputFrames * ONE ensures f <= g {
      if g < f {
        ProductIncreases(g, f, outputCapacity);
        assert false;
      }
    }
  }

  /** A step of at least the minimum factor never overruns the output buffer, from any position a block can
      leave behind. */
  lemma {:induction false} OutputFits(n: nat, p: int, step: nat, inputFrames: nat, outputCapacity: nat)
    requires 0 < n <= inputFrames && outputCapacity > 0 && p >= -ONE
    requires step >= MinFactor(inputFrames, outputCapacity)
    ensures step > 0 && Outputs(n, p, step) <= outputCapacity
  {
    hide *;
    PositionConserved(n, p, step);
    ProductMonotone(MinFactor(inputFrames, outputCapacity), step, outputCapacity);
    ProductCommutes(step, outputCapacity);
    if Outputs(n, p, step) > outputCapacity {
      ProductIncreases(outputCapacity, Outputs(n, p, step), step);
      assert false;
    }
  }

  /** Over the first n blocks at one step: how many frames come out, and the position left. */
  function Blocks(ns: seq<nat>, n: nat, p: int, step: nat): (nat, int)
    requires step > 0 && n <= |ns| && forall i :: 0 <= i < |ns| ==> ns[i] > 0
  {
    if n == 0 then (0, p)
    else
      var (out, q) := Blocks(ns, n - 1, p, step);
      (out + Outputs(ns[n - 1], q, step), EndPosition(ns[n - 1], q, step))
  }

  /** The frames produced follow the frames consumed with a bounded difference: no drift accumulates. */
  lemma {:induction false} NoDrift(ns: seq<nat>, n: nat, p: int, step: nat)
    requires step > 0 && p >= -ONE && n <= |ns| && forall i :: 0 <= i < |ns| ==> ns[i] > 0
    ensures var (out, q) := Blocks(ns, n, p, step);
            && Product(out, step) == Sum(ns, n) * ONE + q - p
            && -ONE <= q && (q < step || q <= p)
  {
    hide Outputs, EndPosition, Product;
    if n == 0 {
      ProductOf(step);
    } else {
      NoDrift(ns, n - 1, p, step);
      var (out, q) := Blocks(ns, n - 1, p, step);
      PositionConserved(ns[n - 1], q, step);
      ProductPlus(out, Outputs(ns[n - 1], q, step), step);
    }
  }

  // ----- what the frames are

  predicate IsFrame(f: Frame, channels: nat) {
    |f| == channels && forall c :: 0 <= c < channels ==> IsInt16(f[c])
  }

  function Mix(f1: Frame, f2: Frame, t: int): (f: Frame)
    requires |f1| == |f2|
    ensures |f| == |f1| && forall c :: 0 <= c < |f| ==> f[c] == Interpolate(f1[c], f2[c], t)
  {
    seq(|f1|, c requires 0 <= c < |f1| => Interpolate(f1[c], f2[c], t))
  }

  ghost predicate IsBlock(input: seq<Frame>, channels: nat) {
    |input| > 0 && forall i :: 0 <= i < |input| ==> IsFrame(input[i], channels)
  }

  /** Frame number `i` of the input, where -1 is the last frame of the previous block. */
  function FrameAt(last: Frame, input: seq<Frame>, i: int): Frame
    requires -1 <= i < |input|
  {
    if i < 0 then last else input[i]
  }

  /** The frame at a position between two input frames. */
  ghost function OutputAt(last: Frame, input: seq<Frame>, p: int, channels: nat): Frame
    requires IsFrame(last, channels) && IsBlock(input, channels) && -ONE <= p < (|input| - 1) * ONE
  {
    Mix(FrameAt(last, input, p / ONE), FrameAt(last, input, p / ONE + 1), p % ONE)
  }

  /** Everything a block produces from position `p` on. */
  ghost function Produced(last: Frame, input: seq<Frame>, p: int, step: nat, channels: nat): (r: seq<Frame>)
    requires IsFrame(last, channels) && IsBlock(input, channels) && -ONE <= p && step > 0
    ensures |r| == Outputs(|input|, p, step)
    decreases (|input| - 1) * ONE - p
  {
    if p >= (|input| - 1) * ONE then []
    else [OutputAt(last, input, p, channels)] + Produced(last, input, p + step, step, channels)
  }

  /** The output lies on the straight line between two samples, at the fraction of the position, rounded down. */
  lemma {:induction false} OnTheLine(s1: int, s2: int, t: int)
    requires 0 <= t < ONE
    ensures Interpolate(s1, s2, t) == s1 + (s2 - s1) * t / ONE
  {
    var d := (s2 - s1) * t;
    assert s1 * (ONE - t) + s2 * t == s1 * ONE + d;
    assert (s1 * ONE + d) / ONE == s1 + d / ONE;
  }

  /** The output at position i + t / ONE lies between frame i and the next one, where -1 is the last frame of the block
      before. */
  lemma {:induction false} OutputOnTheLine(last: Frame, input: seq<Frame>, i: int, t: int, channels: nat, c: nat)
    requires IsFrame(last, channels) && IsBlock(input, channels) && c < channels
    requires -1 <= i < |input| - 1 && 0 <= t < ONE
    ensures var a, b := if i < 0 then last else input[i], input[i + 1];
            var f := OutputAt(last, input, i * ONE + t, channels);
            |f| == |a| == |b| == channels && f[c] == a[c] + (b[c] - a[c]) * t / ONE
  {
    var p := i * ONE + t;
    assert p / ONE == i && p % ONE == t;
    var a, b := FrameAt(last, input, i), FrameAt(last, input, i + 1);
    assert IsFrame(a, channels) && IsFrame(b, channels);
    OnTheLine(a[c], b[c], t);
    hide Interpolate;
  }

  /** A position on a frame gives this frame. */
  lemma {:induction false} OnAFrame(last: Frame, input: seq<Frame>, i: int, channels: nat)
    requires IsFrame(last, channels) && IsBlock(input, channels) && -1 <= i < |input| - 1
    ensures OutputAt(last, input, i * ONE, channels) == if i < 0 then last else input[i]
  {
    var f, h := if i < 0 then last else input[i], OutputAt(last, input, i * ONE, channels);
    assert IsFrame(f, channels) && IsFrame(input[i + 1], channels);
    assert |h| == channels;
    hide OutputAt;
    forall c | 0 <= c < channels ensures h[c] == f[c] {
      OutputOnTheLine(last, input, i, 0, channels, c);
    }
  }

  /** At the neutral step the output is the input, delayed by what the block before has left over. */
  lemma {:induction false} NeutralOutput(last: Frame, input: seq<Frame>, i: int, channels: nat)
    requires IsFrame(last, channels) && IsBlock(input, channels) && -1 <= i < |input|
    ensures Produced(last, input, i * ONE, ONE, channels) == ([last] + input)[i + 1..|input|]
    decreases |input| - i
  {
    hide OutputAt, IsFrame, Mix;
    if i < |input| - 1 {
      NeutralOutput(last, input, i + 1, channels);
      OnAFrame(last, input, i, channels);
      assert (i + 1) * ONE == i * ONE + ONE;
      assert ([last] + input)[i + 1..|input|] == [([last] + input)[i + 1]] + ([last] + input)[i + 2..|input|];
    }
  }

  /** Positions behind the first part belong to the second part. */
  lemma {:induction false} ProducedShift(last: Frame, a: seq<Frame>, b: seq<Frame>, p: int, step: nat, channels: nat)
    requires IsFrame(last, channels) && IsBlock(a, channels) && IsBlock(b, channels) && step > 0
    requires p >= (|a| - 1) * ONE
    ensures Produced(last, a + b, p, step, channels)
            == Produced(a[|a| - 1], b, p - |a| * ONE, step, channels)
    ensures EndPosition(|a + b|, p, step) == EndPosition(|b|, p - |a| * ONE, step)
    decreases (|a| + |b| - 1) * ONE - p
  {
    hide OutputAt, Mix, IsFrame, Outputs;
    if p < (|a| + |b| - 1) * ONE {
      ProducedShift(last, a, b, p + step, step, channels);
      OutputShift(last, a, b, p, channels);
    }
  }

  lemma {:induction false} OutputShift(last: Frame, a: seq<Frame>, b: seq<Frame>, p: int, channels: nat)
    requires IsFrame(last, channels) && IsBlock(a, channels) && IsBlock(b, channels)
    requires (|a| - 1) * ONE <= p < (|a| + |b| - 1) * ONE
    ensures OutputAt(last, a + b, p, channels) == OutputAt(a[|a| - 1], b, p - |a| * ONE, channels)
  {
    var q := p - |a| * ONE;
    assert q / ONE == p / ONE - |a| && q % ONE == p % ONE;
  }

  lemma {:induction false} OutputPrefix(last: Frame, a: seq<Frame>, b: seq<Frame>, p: int, channels: nat)
    requires IsFrame(last, channels) && IsBlock(a, channels) && IsBlock(b, channels)
    requires -ONE <= p < (|a| - 1) * ONE
    ensures OutputAt(last, a + b, p, channels) == OutputAt(last, a, p, channels)
  {
  }

  /** Cutting a stream into blocks does not change what is produced: two blocks yield the same frames and leave
      the same position as one block with all the input. */
  lemma {:induction false} SplitInvariant(last: Frame, a: seq<Frame>, b: seq<Frame>, p: int, step: nat, channels: nat)
    requires IsFrame(last, channels) && IsBlock(a, channels) && IsBlock(b, channels) && step > 0 && p >= -ONE
    ensures EndPosition(|a|, p, step) >= -ONE
    ensures Produced(last, a + b, p, step, channels)
            == Produced(last, a, p, step, channels)
               + Produced(a[|a| - 1], b, EndPosition(|a|, p, step), step, channels)
    ensures EndPosition(|a + b|, p, step) == EndPosition(|b|, EndPosition(|a|, p, step), step)
    decreases (|a| - 1) * ONE - p
  {
    hide OutputAt, Mix, IsFrame, Outputs;
    PositionConserved(|a|, p, step);
    BlocksJoin(a, b, channels);
    if p >= (|a| - 1) * ONE {
      ProducedShift(last, a, b, p, step, channels);
      assert Produced(last, a, p, step, channels) == [];
    } else {
      SplitInvariant(last, a, b, p + step, step, channels);
      OutputPrefix(last, a, b, p, channels);
      var o := [OutputAt(last, a, p, channels)];
      var x, y := Produced(last, a, p + step, step, channels),
                  Produced(a[|a| - 1], b, EndPosition(|a|, p, step), step, channels);
      assert o + (x + y) == (o + x) + y;
    }
  }

  lemma {:induction false} BlocksJoin(a: seq<Frame>, b: seq<Frame>, channels: nat)
    requires IsBlock(a, channels) && IsBlock(b, channels)
    ensures IsBlock(a + b, channels)
  {
  }

  /** The resampler object: position and step as 32 bit words. */
  class Resample {
    const numChannels: nat
    var srcPos: nat
    var srcStep: nat
    var lastSample: Frame

    /** The position as a number: the word wraps once for the last frame of the previous block. */
    ghost function Position(): int
      reads this
    {
      if srcPos >= 0xffff_0000 then srcPos - 0x1_0000_0000 else srcPos
    }

    ghost predicate Valid()
      reads this
    {
      && 0 <= srcPos < 0x1_0000_0000 && Position() < MAX_STEP
      && 0 < srcStep < MAX_STEP && IsFrame(lastSample, numChannels)
    }

    constructor (channels: nat)
      ensures Valid() && numChannels == channels && Position() == 0 && srcStep == ONE
    {
      numChannels := channels;
      srcPos, srcStep := 0, ONE;
      lastSample := seq(channels, _ => 0);
    }

    method SetFactor(step: nat)
      requires Valid() && 0 < step < MAX_STEP
      modifies this`srcStep
      ensures Valid() && srcStep == step
    {
      srcStep := step;
    }

    /** The channel loop. */
    method MixFrames(f1: Frame, f2: Frame, t: nat) returns (f: Frame)
      requires IsFrame(f1, numChannels) && IsFrame(f2, numChannels) && t < ONE
      ensures f == Mix(f1, f2, t)
    {
      hide Interpolate, U32, I16;
      f := [];
      for i := 0 to numChannels
        invariant |f| == i && forall c :: 0 <= c < i ==> f[c] == Interpolate(f1[c], f2[c], t)
      {
        InterpolateExact(f1[i], f2[i], t);
        f := f + [I16(U32(U32(f1[i] * (ONE - t)) + f2[i] * t) / ONE)];
      }
    }

    /** src_pos += src_step */
    method Step()
      requires 0 <= srcPos < 0x1_0000_0000 && 0 < srcStep < MAX_STEP && Position() < MAX_STEP
      modifies this`srcPos
      ensures 0 <= srcPos < 0x1_0000_0000 && Position() == old(Position()) + srcStep
    {
      srcPos := U32(srcPos + srcStep);
    }

    /** The first loop: positions between the previous block and this one. */
    method ProduceHead(input: seq<Frame>) returns (output: seq<Frame>)
      requires Valid() && IsBlock(input, numChannels) && Position() >= -ONE
      modifies this`srcPos
      ensures 0 <= srcPos < 0xffff_0000 && Position() < MAX_STEP
      ensures Resumes(output, lastSample, input, old(Position()), Position(), srcStep, numChannels)
    {
      hide Produced, OutputAt, EndPosition, Mix, Resumes;
      output := [];
      ResumesStart(lastSample, input, Position(), srcStep, numChannels);
      while srcPos >= 0xffff_0000
        invariant 0 <= srcPos < 0x1_0000_0000 && Position() < MAX_STEP
        invariant Resumes(output, lastSample, input, old(Position()), Position(), srcStep, numChannels)
        decreases MAX_STEP - Position()
      {
        var t := srcPos % ONE;
        var f := MixFrames(lastSample, input[0], t);
        HeadFrame(lastSample, input, Position(), numChannels);
        ResumesStep(output, lastSample, input, old(Position()), Position(), srcStep, numChannels, f);
        output := output + [f];
        Step();
      }
    }

    /** The second loop: positions within the block. */
    method ProduceBody(input: seq<Frame>, head: seq<Frame>, ghost start: int) returns (output: seq<Frame>)
      requires 0 <= srcPos < 0xffff_0000 && Position() < MAX_STEP && 0 < srcStep < MAX_STEP
      requires IsFrame(lastSample, numChannels)
      requires IsBlock(input, numChannels) && |input| < 0x4000
      requires Resumes(head, lastSample, input, start, Position(), srcStep, numChannels)
      modifies this`srcPos
      ensures 0 <= srcPos < 0xffff_0000 && (|input| - 1) * ONE <= srcPos < 2 * MAX_STEP
      ensures Resumes(output, lastSample, input, start, Position(), srcStep, numChannels)
      ensures srcPos < |input| * ONE + MAX_STEP
    {
      hide Produced, OutputAt, EndPosition, Mix, Resumes;
      output := head;
      while true
        invariant 0 <= srcPos < 0xffff_0000 && srcPos < |input| * ONE + MAX_STEP
        invariant Resumes(output, lastSample, input, start, Position(), srcStep, numChannels)
        decreases 3 * MAX_STEP - srcPos
      {
        var pos := srcPos / ONE;
        var t := srcPos % ONE;
        if pos >= |input| - 1 {
          break;
        }
        var f := MixFrames(input[pos], input[pos + 1], t);
        BodyFrame(lastSample, input, Position(), numChannels);
        ResumesStep(output, lastSample, input, start, Position(), srcStep, numChannels, f);
        output := output + [f];
        Step();
      }
    }

    /** btstack_resample_block: the frames of the block at the current step, and the position left for the next
        block. */
    method ResampleBlock(input: seq<Frame>) returns (output: seq<Frame>)
      requires Valid() && IsBlock(input, numChannels) && |input| < 0x4000
      modifies this`srcPos, this`lastSample
      ensures Valid() && lastSample == input[|input| - 1]
      ensures output == Produced(old(lastSample), input, old(Position()), srcStep, numChannels)
      ensures Position() == EndPosition(|input|, old(Position()), srcStep)
    {
      hide Produced, OutputAt, Mix;
      var head := ProduceHead(input);
      output := ProduceBody(input, head, old(Position()));
      ResumesEnd(output, lastSample, input, old(Position()), Position(), srcStep, numChannels);
      lastSample := input[|input| - 1];
      srcPos := U32(srcPos - |input| * ONE);
    }
  }

  /** What is left to produce from position `p` completes the output, and the end position is the same. */
  ghost predicate Resumes(output: seq<Frame>, last: Frame, input: seq<Frame>, start: int, p: int, step: nat,
                          channels: nat)
  {
    && IsFrame(last, channels) && IsBlock(input, channels) && step > 0 && -ONE <= start && -ONE <= p
    && output + Produced(last, input, p, step, channels) == Produced(last, input, start, step, channels)
    && EndPosition(|input|, p, step) == EndPosition(|input|, start, step)
  }

  lemma {:induction false} ResumesStart(last: Frame, input: seq<Frame>, p: int, step: nat, channels: nat)
    requires IsFrame(last, channels) && IsBlock(input, channels) && step > 0 && -ONE <= p
    ensures Resumes([], last, input, p, p, step, channels)
  {
    assert [] + Produced(last, input, p, step, channels) == Produced(last, input, p, step, channels);
  }

  lemma {:induction false} ResumesStep(output: seq<Frame>, last: Frame, input: seq<Frame>, start: int, p: int,
                                       step: nat, channels: nat, f: Frame)
    requires Resumes(output, last, input, start, p, step, channels) && p < (|input| - 1) * ONE
    requires f == OutputAt(last, input, p, channels)
    ensures Resumes(output + [f], last, input, start, p + step, step, channels)
  {
    var rest := Produced(last, input, p + step, step, channels);
    assert output + ([f] + rest) == (output + [f]) + rest;
  }

  lemma {:induction false} ResumesEnd(output: seq<Frame>, last: Frame, input: seq<Frame>, start: int, p: int,
                                      step: nat, channels: nat)
    requires Resumes(output, last, input, start, p, step, channels) && p >= (|input| - 1) * ONE
    ensures output == Produced(last, input, start, step, channels)
    ensures EndPosition(|input|, start, step) == p - |input| * ONE
  {
    assert output + [] == output;
  }

  lemma {:induction false} HeadFrame(last: Frame, input: seq<Frame>, p: int, channels: nat)
    requires IsFrame(last, channels) && IsBlock(input, channels) && -ONE <= p < 0
    ensures OutputAt(last, input, p, channels) == Mix(last, input[0], p + ONE)
  {
    assert p / ONE == -1 && p % ONE == p + ONE;
  }

  lemma {:induction false} BodyFrame(last: Frame, input: seq<Frame>, p: int, channels: nat)
    requires IsFrame(last, channels) && IsBlock(input, channels) && 0 <= p < (|input| - 1) * ONE
    ensures OutputAt(last, input, p, channels) == Mix(input[p / ONE], input[p / ONE + 1], p % ONE)
  {
  }
}
