/**
 * The per-bar work of one frame, as functions of the bar's inputs and its
 * state from the previous frame: which channel entry the bar shows, gravity
 * falloff, integral memory, the floor of 1, and the automatic sensitivity
 * controller that runs over the whole frame.
 */
module Smoothing {
  import opened Numerics
  import opened BarCount

  // ---------------------------------------------------------------------
  // Channel mapping
  // ---------------------------------------------------------------------

  datatype Channel = Left | Right

  /** An entry of one channel's bar array. */
  datatype Source = Source(channel: Channel, index: int)

  /**
   * The entry bar n shows. In stereo the left half shows the left channel
   * mirrored (lowest frequency in the middle) and the right half the right
   * channel; `reverse` flips both halves. In mono, bar n shows left entry n,
   * or entry count-1-n when reversed.
   */
  function SourceOf(n: int, count: int, stereo: bool, reverse: bool): (src: Source)
    requires 0 <= n < count
    requires stereo ==> count % 2 == 0
    ensures 0 <= src.index < ChannelWidth(count, stereo)
    ensures !stereo ==> src.channel == Left
    ensures stereo ==> (src.channel == Left <==> n < count / 2)
  {
    if stereo then
      if n < count / 2 then
        Source(Left, if reverse then n else count / 2 - n - 1)
      else
        Source(Right, if reverse then count - n - 1 else n - count / 2)
    else
      Source(Left, if reverse then count - 1 - n else n)
  }

  predicate ValidSource(src: Source, count: int, stereo: bool)
  {
    && 0 <= src.index < ChannelWidth(count, stereo)
    && (!stereo ==> src.channel == Left)
  }

  /** The bar that shows a given channel entry: the inverse of SourceOf. */
  function BarOf(src: Source, count: int, stereo: bool, reverse: bool): (n: int)
    requires ValidSource(src, count, stereo)
    requires stereo ==> count % 2 == 0
    ensures 0 <= n < count
  {
    if stereo then
      if src.channel == Left then
        if reverse then src.index else count / 2 - 1 - src.index
      else
        if reverse then count - 1 - src.index else count / 2 + src.index
    else
      if reverse then count - 1 - src.index else src.index
  }

  /** Every bar reads a valid entry, and BarOf gives the bar back. */
  lemma SourceThenBar(n: int, count: int, stereo: bool, reverse: bool)
    requires 0 <= n < count && (stereo ==> count % 2 == 0)
    ensures ValidSource(SourceOf(n, count, stereo, reverse), count, stereo)
    ensures BarOf(SourceOf(n, count, stereo, reverse), count, stereo, reverse) == n
  {
  }

  /** Every entry is read by the bar BarOf names. */
  lemma BarThenSource(src: Source, count: int, stereo: bool, reverse: bool)
    requires ValidSource(src, count, stereo) && (stereo ==> count % 2 == 0)
    ensures SourceOf(BarOf(src, count, stereo, reverse), count, stereo, reverse) == src
  {
  }

  /** So each entry of each channel is read by exactly one bar. */
  lemma ReadExactlyOnce(src: Source, count: int, stereo: bool, reverse: bool)
    requires ValidSource(src, count, stereo) && (stereo ==> count % 2 == 0)
    ensures exists n :: 0 <= n < count && SourceOf(n, count, stereo, reverse) == src
    ensures forall n1, n2 ::
      0 <= n1 < count && 0 <= n2 < count &&
      SourceOf(n1, count, stereo, reverse) == src && SourceOf(n2, count, stereo, reverse) == src
      ==> n1 == n2
  {
    BarThenSource(src, count, stereo, reverse);
    forall n1, n2 | 0 <= n1 < count && 0 <= n2 < count &&
      SourceOf(n1, count, stereo, reverse) == src && SourceOf(n2, count, stereo, reverse) == src
      ensures n1 == n2
    {
      SourceThenBar(n1, count, stereo, reverse);
      SourceThenBar(n2, count, stereo, reverse);
    }
  }

  /** The value bar n reads from the two channel arrays. */
  function Input(left: seq<int>, right: seq<int>, n: int, count: int, stereo: bool, reverse: bool): int
    requires 0 <= n < count && (stereo ==> count % 2 == 0)
    requires |left| >= ChannelWidth(count, stereo) && (stereo ==> |right| >= count / 2)
  {
    var src := SourceOf(n, count, stereo, reverse);
    if src.channel == Left then left[src.index] else right[src.index]
  }

  // ---------------------------------------------------------------------
  // Per-bar smoothing state
  // ---------------------------------------------------------------------

  /**
   * What a bar keeps between frames: the value gravity last emitted, the
   * peak it falls from, the number of frames it has been falling, and the
   * integral memory. The source keeps the peak in a float, but only ever
   * stores integers in it.
   */
  datatype BarState = BarState(last: int, peak: int, fall: int, mem: int)

  /** The state every bar has after a layout pass. */
  const Reset: BarState := BarState(0, 0, 0, 0)

  /** The bar value a step emits, with the bar's new state. */
  datatype Step = Step(bar: int, state: BarState)

  /**
   * Gravity falloff, applied only when g > 0. A bar below the value emitted
   * last frame is replaced by its peak minus g times the square of the frames
   * it has been falling (truncated, never below 0); otherwise its value
   * becomes the new peak and the fall restarts. Either way, `last` records
   * what is emitted.
   */
  function Gravity(x: int, s: BarState, g: real): (r: Step)
    ensures g > 0.0 ==> r.state.last == r.bar && r.state.mem == s.mem
    ensures g > 0.0 && x >= s.last ==> r.bar == x && r.state.peak == x && r.state.fall == 0
    ensures g > 0.0 && x < s.last ==> r.bar >= 0 && r.state.peak == s.peak && r.state.fall == s.fall + 1
    ensures g <= 0.0 ==> r == Step(x, s)
  {
    if g > 0.0 then
      if x < s.last then
        var v := Trunc(s.peak as real - g * (s.fall as real) * (s.fall as real));
        var out := if v < 0 then 0 else v;
        Step(out, s.(last := out, fall := s.fall + 1))
      else
        Step(x, s.(last := x, peak := x, fall := 0))
    else
      Step(x, s)
  }

  /** A falling bar's output is max(0, peak - g * fall^2): it does not depend on the new input. */
  lemma GravityFallingOutput(x: int, s: BarState, g: real)
    requires g > 0.0 && x < s.last
    ensures Gravity(x, s, g).bar == Max(0, Trunc(s.peak as real - g * (s.fall * s.fall) as real))
  {
    assert (s.fall as real) * (s.fall as real) == (s.fall * s.fall) as real;
  }

  lemma GravityIgnoresFallingInput(x1: int, x2: int, s: BarState, g: real)
    requires g > 0.0 && x1 < s.last && x2 < s.last
    ensures Gravity(x1, s, g) == Gravity(x2, s, g)
  {
  }

  /** One more frame of falling takes the bar lower. */
  lemma LongerFallIsLower(peak: real, g: real, f: real)
    requires g > 0.0 && f >= 0.0
    ensures peak - g * (f + 1.0) * (f + 1.0) < peak - g * f * f
  {
    assert g * (f + 1.0) * (f + 1.0) == g * f * f + g * (2.0 * f + 1.0);
    assert g * (2.0 * f + 1.0) > 0.0;
  }

  /**
   * While a bar keeps falling, gravity emits a non-increasing sequence of
   * values: the next falling frame never shows more than this one.
   */
  lemma GravityFallNonIncreasing(x1: int, x2: int, s: BarState, g: real)
    requires g > 0.0 && s.fall >= 0 && x1 < s.last
    requires x2 < Gravity(x1, s, g).state.last
    ensures Gravity(x2, Gravity(x1, s, g).state, g).bar <= Gravity(x1, s, g).bar
  {
    var f := s.fall as real;
    var a := s.peak as real - g * f * f;
    var b := s.peak as real - g * (f + 1.0) * (f + 1.0);
    LongerFallIsLower(s.peak as real, g, f);
    TruncMonotone(b, a);
    var r1 := Gravity(x1, s, g);
    assert r1.bar == (if Trunc(a) < 0 then 0 else Trunc(a));
    assert r1.state == s.(last := r1.bar, fall := s.fall + 1);
    var s1 := r1.state;
    assert s1.peak == s.peak && (s1.fall as real) == f + 1.0;
    assert s1.peak as real - g * (s1.fall as real) * (s1.fall as real) == b;
    assert Gravity(x2, s1, g).bar == (if Trunc(b) < 0 then 0 else Trunc(b));
  }

  /**
   * Integral memory, applied only when integral > 0: the bar becomes
   * mem * integral + bar (truncated) and the memory takes that value, then
   * decays (MemoryDecay).
   */
  function Integral(x: int, s: BarState, integral: real, height: int): (r: Step)
    ensures r.state == s.(mem := r.state.mem)
    ensures integral <= 0.0 ==> r == Step(x, s)
  {
    if integral > 0.0 then
      var v := Trunc(s.mem as real * integral + x as real);
      Step(v, s.(mem := MemoryDecay(v, height)))
    else
      Step(x, s)
  }

  /**
   * The decay of the integral memory v: scaled by 0.95 and truncated once the
   * bar has reached the height, kept as it is below it.
   */
  function MemoryDecay(v: int, height: int): int
  {
    if v >= height then Trunc(v as real * 0.95) else v
  }

  /**
   * The source's formula: with diff = max(0, height - v) and div = 1 / (diff + 1)
   * in integer arithmetic, the memory becomes v * (1 - div / 20), truncated.
   * An integer quotient, div is 1 only when diff is 0, so the formula is
   * MemoryDecay: a decay by a twentieth at the height and none below it,
   * rather than one that grows smoothly as the bar nears the height.
   */
  lemma MemoryDecayFormula(v: int, height: int, diff: int, div: int)
    requires diff == if height - v < 0 then 0 else height - v
    requires div == 1 / (diff + 1)
    ensures Trunc(v as real * (1.0 - div as real / 20.0)) == MemoryDecay(v, height)
  {
    if diff > 0 {
      assert div == 0;
      assert 1.0 - div as real / 20.0 == 1.0;
      TruncOfInt(v);
    } else {
      assert div == 1;
      assert 1.0 - div as real / 20.0 == 0.95;
    }
  }

  /** Below the height the integral memory is the new bar value itself. */
  lemma IntegralKeepsBelowHeight(x: int, s: BarState, integral: real, height: int)
    requires integral > 0.0
    ensures var r := Integral(x, s, integral, height); r.bar < height ==> r.state.mem == r.bar
  {
  }

  /** At or above the height the integral memory is the new bar value scaled by 0.95. */
  lemma IntegralDecaysAtHeight(x: int, s: BarState, integral: real, height: int)
    requires integral > 0.0
    ensures var r := Integral(x, s, integral, height); r.bar >= height ==> r.state.mem == Trunc(r.bar as real * 0.95)
  {
  }

  /** At the height, scaling by 0.95 strictly lowers a positive memory and keeps it non-negative. */
  lemma IntegralDecayLowers(x: int, s: BarState, integral: real, height: int)
    requires integral > 0.0
    requires Integral(x, s, integral, height).bar >= height
    requires Integral(x, s, integral, height).bar >= 1
    ensures 0 <= Integral(x, s, integral, height).state.mem < Integral(x, s, integral, height).bar
  {
    IntegralDecaysAtHeight(x, s, integral, height);
  }

  /** With non-negative input and memory, the integral step stays non-negative. */
  lemma IntegralNonNegative(x: int, s: BarState, integral: real, height: int)
    requires x >= 0 && s.mem >= 0
    ensures Integral(x, s, integral, height).bar >= 0
    ensures Integral(x, s, integral, height).state.mem >= 0
  {
    if integral > 0.0 {
      IntegralKeepsBelowHeight(x, s, integral, height);
      IntegralDecaysAtHeight(x, s, integral, height);
      assert s.mem as real * integral >= 0.0;
    }
  }

  /** A zero bar goes to 1 unless the output is raw (renderers divide by bar heights). */
  function FloorBar(x: int, raw: bool): (r: int)
    ensures !raw ==> r >= 1
    ensures r >= x
    ensures raw || x >= 1 ==> r == x
  {
    if !raw && x < 1 then 1 else x
  }

  /**
   * Everything one bar goes through in a frame: gravity, integral, floor.
   * The floor changes only the emitted value, not the recorded state.
   */
  function BarStep(x: int, s: BarState, g: real, integral: real, height: int, raw: bool): (r: Step)
    ensures !raw ==> r.bar >= 1
  {
    var afterGravity := Gravity(x, s, g);
    var afterIntegral := Integral(afterGravity.bar, afterGravity.state, integral, height);
    Step(FloorBar(afterIntegral.bar, raw), afterIntegral.state)
  }

  /** Non-negative inputs and state stay non-negative through a step. */
  lemma BarStepNonNegative(x: int, s: BarState, g: real, integral: real, height: int, raw: bool)
    requires x >= 0 && s.last >= 0 && s.peak >= 0 && s.fall >= 0 && s.mem >= 0
    ensures var r := BarStep(x, s, g, integral, height, raw);
      r.bar >= 0 && r.state.last >= 0 && r.state.peak >= 0 && r.state.fall >= 0 && r.state.mem >= 0
  {
    var a := Gravity(x, s, g);
    IntegralNonNegative(a.bar, a.state, integral, height);
  }

  // ---------------------------------------------------------------------
  // Automatic sensitivity
  // ---------------------------------------------------------------------

  /** The controller's state: the sensitivity, and whether the first lowering is yet to come. */
  datatype SensState = SensState(sens: real, first: bool)

  const LOWER: real := 0.98
  const RAISE: real := 1.001
  const BOOST: real := 1.1

  predicate Overshoots(bars: seq<int>, height: int)
  {
    exists n :: 0 <= n < |bars| && bars[n] > height
  }

  /**
   * One frame of the controller. Off, or on a silent frame, nothing changes.
   * Otherwise a frame with a bar above the height lowers the sensitivity once
   * and ends the start-up phase; a frame without one raises it slowly, and
   * during the start-up phase boosts it as well.
   */
  function AutoSens(st: SensState, bars: seq<int>, height: int, autosens: bool, silence: bool): SensState
  {
    if !autosens || silence then st
    else if Overshoots(bars, height) then SensState(st.sens * LOWER, false)
    else if st.first then SensState(st.sens * RAISE * BOOST, true)
    else SensState(st.sens * RAISE, false)
  }

  lemma AutoSensPositive(st: SensState, bars: seq<int>, height: int, autosens: bool, silence: bool)
    requires st.sens > 0.0
    ensures AutoSens(st, bars, height, autosens, silence).sens > 0.0
  {
  }

  /** The start-up phase ends only on a lowering. */
  lemma AutoSensFirstEndsOnLowering(st: SensState, bars: seq<int>, height: int, autosens: bool, silence: bool)
    ensures AutoSens(st, bars, height, autosens, silence).first <==>
            st.first && !(autosens && !silence && Overshoots(bars, height))
  {
  }

  /** Frames fed to the controller in turn, the controller on and no frame silent. */
  function Run(st: SensState, frames: seq<seq<int>>, height: int): SensState
    decreases frames
  {
    if frames == [] then st else Run(AutoSens(st, frames[0], height, true, false), frames[1..], height)
  }

  /**
   * The start-up boost is not a one-off: on every frame without an overshoot
   * it applies again, until the first lowering.
   */
  lemma {:induction false} BoostRepeats(st: SensState, frames: seq<seq<int>>, height: int)
    requires st.first
    requires forall k :: 0 <= k < |frames| ==> !Overshoots(frames[k], height)
    ensures Run(st, frames, height) == SensState(st.sens * Pow(RAISE * BOOST, |frames|), true)
    decreases frames
  {
    if frames != [] {
      var next := AutoSens(st, frames[0], height, true, false);
      assert next == SensState(st.sens * (RAISE * BOOST), true);
      BoostRepeats(next, frames[1..], height);
    }
  }

  /**
   * Frames that keep overshooting lower a positive sensitivity strictly,
   * frame after frame, and it never reaches zero.
   */
  lemma {:induction false} RepeatedOvershoot(st: SensState, frames: seq<seq<int>>, height: int)
    requires st.sens > 0.0
    requires forall k :: 0 <= k < |frames| ==> Overshoots(frames[k], height)
    ensures Run(st, frames, height).sens == st.sens * Pow(LOWER, |frames|)
    ensures 0.0 < Run(st, frames, height).sens
    ensures |frames| > 0 ==> Run(st, frames, height).sens < st.sens && !Run(st, frames, height).first
    decreases frames
  {
    if frames != [] {
      var next := AutoSens(st, frames[0], height, true, false);
      assert next == SensState(st.sens * LOWER, false);
      RepeatedOvershoot(next, frames[1..], height);
      PowBelowOne(LOWER, |frames| - 1);
      assert st.sens * LOWER * Pow(LOWER, |frames| - 1) < st.sens * 1.0;
    }
  }

  lemma {:induction false} PowBelowOne(b: real, e: nat)
    requires 0.0 < b < 1.0
    ensures 0.0 < Pow(b, e) <= 1.0
  {
    if e > 0 {
      PowBelowOne(b, e - 1);
    }
  }
}
