/**
 * The frame loop's state and the steps it runs each frame: the silence check
 * on the raw bass samples, the sleep counter, the monstercat call, and the
 * per-bar loop that maps channels into bars, smooths every bar and adjusts
 * the sensitivity.
 *
 * The FFT and the reduction of bin ranges to per-channel bar magnitudes are
 * not modelled: the two channel arrays arrive filled.
 */
module Frame {
  import opened Numerics
  import opened BarCount
  import opened Smoothing
  import Monstercat

  /** The configuration values the frame loop reads. */
  datatype Config = Config(
    stereo: bool,
    reverse: bool,
    raw: bool,          // raw output: no floor of 1
    autosens: bool,
    integral: real,
    waves: int,
    monstercat: real,
    framerate: int,
    sleepTimer: int)    // seconds of silence before sleeping; 0 disables sleeping

  // ---------------------------------------------------------------------
  // Silence and sleep
  // ---------------------------------------------------------------------

  /** A frame is silent when every raw bass sample of both channels is zero. */
  predicate Silent(inBassL: seq<real>, inBassR: seq<real>)
    requires |inBassL| == |inBassR|
  {
    forall i :: 0 <= i < |inBassL| ==> inBassL[i] == 0.0 && inBassR[i] == 0.0
  }

  /** The scan for a non-zero sample, stopping at the first one. */
  method IsSilent(inBassL: seq<real>, inBassR: seq<real>) returns (silence: bool)
    requires |inBassL| == |inBassR|
    ensures silence <==> Silent(inBassL, inBassR)
  {
    silence := true;
    var n := 0;
    while n < |inBassL|
      invariant 0 <= n <= |inBassL|
      invariant forall i :: 0 <= i < n ==> inBassL[i] == 0.0 && inBassR[i] == 0.0
    {
      if inBassL[n] != 0.0 || inBassR[n] != 0.0 {
        silence := false;
        break;
      }
      n := n + 1;
    }
  }

  /** Frames of silence after which the loop sleeps. */
  function SleepThreshold(cfg: Config): int
  {
    cfg.framerate * cfg.sleepTimer
  }

  /**
   * The sleep counter after one frame: a silent frame counts up, but not past
   * threshold + 1; a frame with sound resets it.
   */
  function SleepCounterNext(c: int, silence: bool, threshold: int): int
  {
    if silence && c <= threshold then c + 1
    else if !silence then 0
    else c
  }

  /** The largest value the counter can reach. */
  function SleepCeiling(threshold: int): int
  {
    if threshold + 1 > 0 then threshold + 1 else 0
  }

  /** The counter never leaves [0, threshold + 1], and sound resets it. */
  lemma SleepCounterBounded(c: int, silence: bool, threshold: int)
    requires 0 <= c <= SleepCeiling(threshold)
    ensures 0 <= SleepCounterNext(c, silence, threshold) <= SleepCeiling(threshold)
    ensures !silence ==> SleepCounterNext(c, silence, threshold) == 0
  {
  }

  /** The counter after k silent frames in a row. */
  function SilentFrames(c: int, threshold: int, k: nat): int
  {
    if k == 0 then c else SleepCounterNext(SilentFrames(c, threshold, k - 1), true, threshold)
  }

  /**
   * From a counter in range, k silent frames bring it to min(c + k, threshold + 1):
   * the loop starts sleeping exactly once more than threshold frames of silence
   * have been counted, and then keeps sleeping.
   */
  lemma {:induction false} SilentFramesCount(c: int, threshold: int, k: nat)
    requires 0 <= c <= threshold + 1
    ensures SilentFrames(c, threshold, k) == if c + k <= threshold + 1 then c + k else threshold + 1
    ensures SilentFrames(c, threshold, k) > threshold <==> c + k > threshold
  {
    if k > 0 {
      SilentFramesCount(c, threshold, k - 1);
    }
  }

  // ---------------------------------------------------------------------
  // The per-bar state
  // ---------------------------------------------------------------------

  class Visualizer {
    /** The bars shown this frame. */
    const bars: array<int>
    /** Per-bar smoothing state, one entry per possible bar. */
    const barsLast: array<int>
    const barsPeak: array<int>
    const fall: array<int>
    const barsMem: array<int>
    /** The sensitivity, and whether it has not yet been lowered since the configuration was loaded. */
    var sens: real
    var first: bool
    /** Consecutive silent frames, up to the sleep threshold + 1. */
    var sleepCounter: int

    ghost predicate Valid()
      reads this
    {
      && bars.Length == MAX_BARS && barsLast.Length == MAX_BARS && barsPeak.Length == MAX_BARS
      && fall.Length == MAX_BARS && barsMem.Length == MAX_BARS
      && bars != barsLast && bars != barsPeak && bars != fall && bars != barsMem
      && barsLast != barsPeak && barsLast != fall && barsLast != barsMem
      && barsPeak != fall && barsPeak != barsMem
      && fall != barsMem
    }

    /** The smoothing state of bar n. */
    function StateOf(n: int): BarState
      reads this, barsLast, barsPeak, fall, barsMem
      requires Valid() && 0 <= n < MAX_BARS
    {
      BarState(barsLast[n], barsPeak[n], fall[n], barsMem[n])
    }

    /** The smoothing state of every bar. */
    ghost function States(): (r: seq<BarState>)
      reads this, barsLast, barsPeak, fall, barsMem
      requires Valid()
      ensures |r| == MAX_BARS
    {
      ZipStates(barsLast[..], barsPeak[..], fall[..], barsMem[..])
    }

    lemma StatesAt(k: int)
      requires Valid() && 0 <= k < MAX_BARS
      ensures States()[k] == StateOf(k)
    {
    }

    /** Every bar's state is non-negative. */
    ghost predicate StatesNonNegative()
      reads this, barsLast, barsPeak, fall, barsMem
      requires Valid()
    {
      AllNonNegative(States())
    }

    /** A configuration load: the buffers, the sensitivity it sets, and the start-up phase. */
    constructor (initialSens: real)
      ensures Valid()
      ensures fresh(bars) && fresh(barsLast) && fresh(barsPeak) && fresh(fall) && fresh(barsMem)
      ensures sens == initialSens && first && sleepCounter == 0
    {
      bars := new int[MAX_BARS];
      barsLast := new int[MAX_BARS];
      barsPeak := new int[MAX_BARS];
      fall := new int[MAX_BARS];
      barsMem := new int[MAX_BARS];
      sens := initialSens;
      first := true;
      sleepCounter := 0;
    }

    /**
     * Start of a layout pass: every bar and all of its state go to zero, and
     * the sleep counter restarts. The sensitivity carries over.
     */
    method ResetLayout()
      requires Valid()
      modifies this`sleepCounter, bars, barsLast, barsPeak, fall, barsMem
      ensures Valid()
      ensures forall n :: 0 <= n < MAX_BARS ==> bars[n] == 0 && StateOf(n) == Reset
      ensures StatesNonNegative()
      ensures sens == old(sens) && first == old(first) && sleepCounter == 0
    {
      var n := 0;
      while n < MAX_BARS
        invariant 0 <= n <= MAX_BARS
        invariant forall k :: 0 <= k < n ==>
          bars[k] == 0 && barsLast[k] == 0 && barsPeak[k] == 0 && fall[k] == 0 && barsMem[k] == 0
      {
        barsLast[n] := 0;
        fall[n] := 0;
        barsPeak[n] := 0;
        barsMem[n] := 0;
        bars[n] := 0;
        n := n + 1;
      }
      sleepCounter := 0;
    }

    /**
     * The sleep check, run when a sleep timer is configured: count the frame,
     * and report whether the frame is to be skipped.
     */
    method SleepStep(silence: bool, cfg: Config) returns (skip: bool)
      modifies this`sleepCounter
      ensures cfg.sleepTimer != 0 ==>
        && sleepCounter == SleepCounterNext(old(sleepCounter), silence, SleepThreshold(cfg))
        && (skip <==> sleepCounter > SleepThreshold(cfg))
      ensures cfg.sleepTimer == 0 ==> sleepCounter == old(sleepCounter) && !skip
    {
      skip := false;
      if cfg.sleepTimer != 0 {
        if silence && sleepCounter <= cfg.framerate * cfg.sleepTimer {
          sleepCounter := sleepCounter + 1;
        } else if !silence {
          sleepCounter := 0;
        }
        if sleepCounter > cfg.framerate * cfg.sleepTimer {
          skip := true;
        }
      }
    }

    /** Gravity for bar n, whose value is already in bars[n]. */
    method ApplyGravity(n: int, g: real)
      requires Valid() && 0 <= n < MAX_BARS
      modifies bars, barsLast, barsPeak, fall
      ensures Valid()
      ensures Step(bars[n], StateOf(n)) == Gravity(old(bars[n]), old(StateOf(n)), g)
      ensures forall k :: 0 <= k < MAX_BARS && k != n ==>
        bars[k] == old(bars[k]) && StateOf(k) == old(StateOf(k))
    {
      if g > 0.0 {
        if bars[n] < barsLast[n] {
          bars[n] := Trunc(barsPeak[n] as real - g * (fall[n] as real) * (fall[n] as real));
          if bars[n] < 0 {
            bars[n] := 0;
          }
          fall[n] := fall[n] + 1;
        } else {
          barsPeak[n] := bars[n];
          fall[n] := 0;
        }
        barsLast[n] := bars[n];
      }
    }

    /** The integral step for bar n: add the scaled memory and remember the result. */
    method IntegrateBar(n: int, integral: real)
      requires Valid() && 0 <= n < MAX_BARS
      modifies bars, barsMem
      ensures Valid()
      ensures bars[n] == Trunc(old(barsMem[n]) as real * integral + old(bars[n]) as real)
      ensures barsMem[n] == bars[n]
      ensures forall k :: 0 <= k < MAX_BARS && k != n ==> bars[k] == old(bars[k]) && barsMem[k] == old(barsMem[k])
    {
      bars[n] := Trunc(barsMem[n] as real * integral + bars[n] as real);
      barsMem[n] := bars[n];
    }

    /** The memory of bar n decays by a twentieth once the bar reaches the height. */
    method DecayMemory(n: int, height: int)
      requires Valid() && 0 <= n < MAX_BARS
      modifies barsMem
      ensures Valid()
      ensures barsMem[n] == MemoryDecay(old(barsMem[n]), height)
      ensures forall k :: 0 <= k < MAX_BARS && k != n ==> barsMem[k] == old(barsMem[k])
    {
      var diff := height - barsMem[n];
      if diff < 0 {
        diff := 0;
      }
      var div := 1 / (diff + 1);
      MemoryDecayFormula(barsMem[n], height, diff, div);
      barsMem[n] := Trunc(barsMem[n] as real * (1.0 - div as real / 20.0));
    }

    /** The integral filter for bar n. */
    method ApplyIntegral(n: int, integral: real, height: int)
      requires Valid() && 0 <= n < MAX_BARS
      modifies bars, barsMem
      ensures Valid()
      ensures Step(bars[n], StateOf(n)) == Integral(old(bars[n]), old(StateOf(n)), integral, height)
      ensures forall k :: 0 <= k < MAX_BARS && k != n ==>
        bars[k] == old(bars[k]) && StateOf(k) == old(StateOf(k))
    {
      if integral > 0.0 {
        ghost var s0 := StateOf(n);
        ghost var x0 := bars[n];
        assert s0.mem == barsMem[n];
        IntegrateBar(n, integral);
        ghost var v := bars[n];
        assert v == Trunc(s0.mem as real * integral + x0 as real);
        DecayMemory(n, height);
        IntegralAt(x0, s0, integral, height, v, barsMem[n]);
      }
    }

    /** Gravity, integral and floor for bar n, given the value it reads. */
    method SmoothBar(n: int, x: int, g: real, integral: real, height: int, raw: bool)
      requires Valid() && 0 <= n < MAX_BARS
      modifies bars, barsLast, barsPeak, fall, barsMem
      ensures Valid()
      ensures Step(bars[n], StateOf(n)) == BarStep(x, old(StateOf(n)), g, integral, height, raw)
      ensures forall k :: 0 <= k < MAX_BARS && k != n ==>
        bars[k] == old(bars[k]) && StateOf(k) == old(StateOf(k))
    {
      bars[n] := x;
      ApplyGravity(n, g);
      ApplyIntegral(n, integral, height);
      if !raw && bars[n] < 1 {
        bars[n] := 1;
      }
    }

    /**
     * One bar of the per-bar loop: smooth it, and when autosens is on and
     * the frame is not silent, let the first bar above the height lower the
     * sensitivity and end the start-up phase.
     */
    method ProcessBar(n: int, x: int, cfg: Config, g: real, height: int, silence: bool, senselow: bool)
      returns (stillLow: bool)
      requires Valid() && 0 <= n < MAX_BARS
      modifies this`sens, this`first, bars, barsLast, barsPeak, fall, barsMem
      ensures Valid()
      ensures var st := BarStep(x, old(StateOf(n)), g, cfg.integral, height, cfg.raw);
        && bars[..] == old(bars[..])[n := st.bar]
        && States() == old(States())[n := st.state]
        && var lowers := cfg.autosens && !silence && senselow && st.bar > height;
        && (stillLow <==> senselow && !lowers)
        && (lowers ==> sens == old(sens) * LOWER && !first)
        && (!lowers ==> sens == old(sens) && first == old(first))
    {
      ghost var bars0 := bars[..];
      ghost var states0 := States();
      SmoothBar(n, x, g, cfg.integral, height, cfg.raw);
      assert bars[..] == bars0[n := bars[n]];
      forall k | 0 <= k < MAX_BARS
        ensures States()[k] == states0[n := StateOf(n)][k]
      {
        StatesAt(k);
        assert states0[k] == old(StateOf(k));
      }
      assert States() == states0[n := StateOf(n)];
      stillLow := senselow;
      if cfg.autosens && !silence {
        if bars[n] > height && senselow {
          sens := sens * 0.98;
          stillLow := false;
          first := false;
        }
      }
    }

    /**
     * The per-bar loop of a frame over `count` bars (both channels in stereo):
     * map each bar to its channel entry, smooth it, and lower the sensitivity
     * at the first bar above the height. The result says whether no bar did.
     * Bars from `count` on keep their values and state.
     */
    method BarLoop(left: seq<int>, right: seq<int>, count: int, cfg: Config, g: real, height: int, silence: bool)
      returns (senselow: bool)
      requires Valid()
      requires 0 <= count <= MAX_BARS && (cfg.stereo ==> count % 2 == 0)
      requires |left| >= ChannelWidth(count, cfg.stereo) && (cfg.stereo ==> |right| >= count / 2)
      modifies this`sens, this`first, bars, barsLast, barsPeak, fall, barsMem
      ensures Valid()
      ensures var steps := FrameSteps(left, right, count, cfg, g, height, old(States()));
        && bars[..] == StepsBars(steps) + old(bars[..])[count..]
        && States() == StepsStates(steps) + old(States())[count..]
      ensures cfg.autosens && !silence ==> (senselow <==> !Overshoots(bars[..count], height))
      ensures !(cfg.autosens && !silence) ==> senselow
      ensures senselow ==> sens == old(sens) && first == old(first)
      ensures !senselow ==> sens == old(sens) * LOWER && !first
    {
      ghost var bars0 := bars[..];
      ghost var before := States();
      ghost var target := FrameSteps(left, right, count, cfg, g, height, before);
      ghost var shown: seq<int> := [];
      ghost var curBars := bars0;
      ghost var curStates := before;
      senselow := true;
      var n := 0;
      while n < count
        invariant 0 <= n <= count
        invariant Valid()
        invariant bars[..] == curBars && States() == curStates
        invariant |curBars| == MAX_BARS && |curStates| == MAX_BARS && |shown| == n
        invariant forall k :: 0 <= k < n ==> shown[k] == target[k].bar
        invariant forall k :: 0 <= k < n ==> curBars[k] == target[k].bar && curStates[k] == target[k].state
        invariant forall k :: n <= k < MAX_BARS ==> curBars[k] == bars0[k] && curStates[k] == before[k]
        invariant cfg.autosens && !silence ==> (senselow <==> !Overshoots(shown, height))
        invariant !(cfg.autosens && !silence) ==> senselow
        invariant senselow ==> sens == old(sens) && first == old(first)
        invariant !senselow ==> sens == old(sens) * LOWER && !first
      {
        var x := Input(left, right, n, count, cfg.stereo, cfg.reverse);
        StatesAt(n);
        assert target[n] == BarStep(x, before[n], g, cfg.integral, height, cfg.raw);
        senselow := ProcessBar(n, x, cfg, g, height, silence, senselow);
        OvershootsExtend(shown, target[n].bar, height);
        shown := shown + [target[n].bar];
        curBars := curBars[n := target[n].bar];
        curStates := curStates[n := target[n].state];
        n := n + 1;
      }
      SteppedFrame(target, shown, curBars, curStates, bars0, before);
    }

    /**
     * The per-bar work of a frame: the bar loop, then, when autosens is on,
     * the frame is not silent and no bar went above the height, the
     * sensitivity rises (by a further tenth during the start-up phase).
     */
    method ProcessBars(left: seq<int>, right: seq<int>, count: int, cfg: Config, g: real, height: int, silence: bool)
      requires Valid()
      requires 0 <= count <= MAX_BARS && (cfg.stereo ==> count % 2 == 0)
      requires |left| >= ChannelWidth(count, cfg.stereo) && (cfg.stereo ==> |right| >= count / 2)
      modifies this`sens, this`first, bars, barsLast, barsPeak, fall, barsMem
      ensures Valid()
      ensures var steps := FrameSteps(left, right, count, cfg, g, height, old(States()));
        && bars[..] == StepsBars(steps) + old(bars[..])[count..]
        && States() == StepsStates(steps) + old(States())[count..]
      ensures !cfg.raw ==> forall n :: 0 <= n < count ==> bars[n] >= 1
      ensures SensState(sens, first) ==
        AutoSens(SensState(old(sens), old(first)), bars[..count], height, cfg.autosens, silence)
      ensures old(StatesNonNegative()) && ChannelsNonNegative(left, right, count, cfg.stereo) ==> StatesNonNegative()
    {
      var senselow := BarLoop(left, right, count, cfg, g, height, silence);
      if cfg.autosens && !silence && senselow {
        sens := sens * 1.001;
        if first {
          sens := sens * 1.1;
        }
      }
      AutoSensOfLoop(old(sens), old(first), sens, first, bars[..count], height, cfg.autosens, silence, senselow);
      FrameNonNegative(left, right, count, cfg, g, height, old(States()), States());
    }

    /**
     * One frame: check for silence, count it towards sleep and skip the frame
     * when sleeping; otherwise filter the two channel arrays (monstercat, only
     * when it is non-zero) and run the per-bar loop. `count` is the total
     * number of bars; in stereo each channel has half of them.
     */
    method Tick(inBassL: seq<real>, inBassR: seq<real>, barsLeft: array<int>, barsRight: array<int>,
                count: int, cfg: Config, g: real, height: int) returns (skipped: bool)
      requires Valid()
      requires |inBassL| == |inBassR|
      requires barsLeft.Length == MAX_BARS && barsRight.Length == MAX_BARS && barsLeft != barsRight
      requires 0 <= count <= MAX_BARS && (cfg.stereo ==> count % 2 == 0)
      requires barsLeft !in {bars, barsLast, barsPeak, fall, barsMem}
      requires barsRight !in {bars, barsLast, barsPeak, fall, barsMem}
      modifies this`sens, this`first, this`sleepCounter, bars, barsLast, barsPeak, fall, barsMem, barsLeft, barsRight
      ensures Valid()
      ensures cfg.sleepTimer != 0 ==>
        && sleepCounter == SleepCounterNext(old(sleepCounter), Silent(inBassL, inBassR), SleepThreshold(cfg))
        && (skipped <==> sleepCounter > SleepThreshold(cfg))
      ensures cfg.sleepTimer == 0 ==> sleepCounter == old(sleepCounter) && !skipped
      ensures skipped ==>
        && sens == old(sens) && first == old(first)
        && bars[..] == old(bars[..]) && States() == old(States())
        && barsLeft[..] == old(barsLeft[..]) && barsRight[..] == old(barsRight[..])
      ensures !skipped ==>
        var w := ChannelWidth(count, cfg.stereo);
        var steps := FrameSteps(barsLeft[..], barsRight[..], count, cfg, g, height, old(States()));
        && barsLeft[..] == Monstercat.AtCallSite(old(barsLeft[..]), w, cfg.waves, cfg.monstercat)
        && barsRight[..] == (if cfg.stereo then Monstercat.AtCallSite(old(barsRight[..]), w, cfg.waves, cfg.monstercat)
                             else old(barsRight[..]))
        && bars[..] == StepsBars(steps) + old(bars[..])[count..]
        && States() == StepsStates(steps) + old(States())[count..]
        && SensState(sens, first) ==
             AutoSens(SensState(old(sens), old(first)), bars[..count], height, cfg.autosens, Silent(inBassL, inBassR))
    {
      var silence := IsSilent(inBassL, inBassR);
      skipped := SleepStep(silence, cfg);
      if skipped {
        return;
      }
      var w := ChannelWidth(count, cfg.stereo);
      if cfg.monstercat != 0.0 {
        if cfg.stereo {
          Monstercat.MonstercatFilter(barsLeft, w, cfg.waves, cfg.monstercat);
          Monstercat.MonstercatFilter(barsRight, w, cfg.waves, cfg.monstercat);
        } else {
          Monstercat.MonstercatFilter(barsLeft, w, cfg.waves, cfg.monstercat);
        }
      }
      ProcessBars(barsLeft[..], barsRight[..], count, cfg, g, height, silence);
    }
  }

  /** Per-bar states from the four parallel arrays that hold them. */
  function ZipStates(last: seq<int>, peak: seq<int>, fall: seq<int>, mem: seq<int>): (r: seq<BarState>)
    requires |last| == |peak| == |fall| == |mem|
    ensures |r| == |last|
  {
    seq(|last|, k requires 0 <= k < |last| => BarState(last[k], peak[k], fall[k], mem[k]))
  }

  /** The bar values of a run of steps. */
  function StepsBars(steps: seq<Step>): (r: seq<int>)
    ensures |r| == |steps| && forall k :: 0 <= k < |steps| ==> r[k] == steps[k].bar
  {
    seq(|steps|, k requires 0 <= k < |steps| => steps[k].bar)
  }

  /** The states a run of steps leaves behind. */
  function StepsStates(steps: seq<Step>): (r: seq<BarState>)
    ensures |r| == |steps| && forall k :: 0 <= k < |steps| ==> r[k] == steps[k].state
  {
    seq(|steps|, k requires 0 <= k < |steps| => steps[k].state)
  }

  predicate NonNegativeState(s: BarState)
  {
    s.last >= 0 && s.peak >= 0 && s.fall >= 0 && s.mem >= 0
  }

  predicate AllNonNegative(states: seq<BarState>)
  {
    forall n :: 0 <= n < |states| ==> NonNegativeState(states[n])
  }

  /** The channel values a frame of `count` bars reads are non-negative. */
  predicate ChannelsNonNegative(left: seq<int>, right: seq<int>, count: int, stereo: bool)
  {
    && (forall i :: 0 <= i < ChannelWidth(count, stereo) && i < |left| ==> left[i] >= 0)
    && (stereo ==> forall i :: 0 <= i < count / 2 && i < |right| ==> right[i] >= 0)
  }

  /** Every bar's step in a frame of `count` bars, from the states before it. */
  ghost function FrameSteps(left: seq<int>, right: seq<int>, count: int, cfg: Config, g: real, height: int,
                            before: seq<BarState>): (r: seq<Step>)
    requires 0 <= count <= |before| && (cfg.stereo ==> count % 2 == 0)
    requires |left| >= ChannelWidth(count, cfg.stereo) && (cfg.stereo ==> |right| >= count / 2)
    ensures |r| == count
    ensures !cfg.raw ==> forall n :: 0 <= n < count ==> r[n].bar >= 1
  {
    seq(count, n requires 0 <= n < count =>
      BarStep(Input(left, right, n, count, cfg.stereo, cfg.reverse), before[n], g, cfg.integral, height, cfg.raw))
  }

  /**
   * A frame over non-negative channel values keeps every bar's state
   * non-negative: the bars it steps stay so by BarStepNonNegative, the others
   * are unchanged.
   */
  lemma FrameNonNegative(left: seq<int>, right: seq<int>, count: int, cfg: Config, g: real, height: int,
                         before: seq<BarState>, after: seq<BarState>)
    requires 0 <= count <= |before| == |after| && (cfg.stereo ==> count % 2 == 0)
    requires |left| >= ChannelWidth(count, cfg.stereo) && (cfg.stereo ==> |right| >= count / 2)
    requires after == StepsStates(FrameSteps(left, right, count, cfg, g, height, before)) + before[count..]
    ensures AllNonNegative(before) && ChannelsNonNegative(left, right, count, cfg.stereo) ==> AllNonNegative(after)
  {
    if AllNonNegative(before) && ChannelsNonNegative(left, right, count, cfg.stereo) {
      var steps := FrameSteps(left, right, count, cfg, g, height, before);
      forall k | 0 <= k < |after|
        ensures NonNegativeState(after[k])
      {
        assert NonNegativeState(before[k]);
        assert k < count ==> after[k] == steps[k].state;
        assert k >= count ==> after[k] == before[k];
        if k < count {
          var src := SourceOf(k, count, cfg.stereo, cfg.reverse);
          var x := Input(left, right, k, count, cfg.stereo, cfg.reverse);
          assert x >= 0 by {
            if src.channel == Left {
              assert x == left[src.index];
            } else {
              assert x == right[src.index];
            }
          }
          assert steps[k] == BarStep(x, before[k], g, cfg.integral, height, cfg.raw);
          BarStepNonNegative(x, before[k], g, cfg.integral, height, cfg.raw);
        }
      }
    }
  }

  /** Once every step of a frame is taken, the bars and states are the steps' followed by the untouched rest. */
  lemma SteppedFrame(target: seq<Step>, shown: seq<int>, curBars: seq<int>, curStates: seq<BarState>,
                     bars0: seq<int>, before: seq<BarState>)
    requires |target| == |shown| <= |curBars| == |bars0| == |curStates| == |before|
    requires forall k :: 0 <= k < |target| ==>
      shown[k] == target[k].bar && curBars[k] == target[k].bar && curStates[k] == target[k].state
    requires forall k :: |target| <= k < |bars0| ==> curBars[k] == bars0[k] && curStates[k] == before[k]
    ensures curBars[..|target|] == shown
    ensures curBars == StepsBars(target) + bars0[|target|..]
    ensures curStates == StepsStates(target) + before[|target|..]
  {
    var count := |target|;
    assert curBars[..count] == shown;
    var b := StepsBars(target) + bars0[count..];
    assert forall k :: 0 <= k < |curBars| ==> curBars[k] == b[k];
    var t := StepsStates(target) + before[count..];
    assert forall k :: 0 <= k < |curStates| ==> curStates[k] == t[k];
  }

  /** A frame overshoots once one more bar does, or it already did. */
  lemma OvershootsExtend(shown: seq<int>, bar: int, height: int)
    ensures Overshoots(shown + [bar], height) <==> Overshoots(shown, height) || bar > height
  {
    if Overshoots(shown, height) {
      var k :| 0 <= k < |shown| && shown[k] > height;
      assert (shown + [bar])[k] > height;
    }
    if bar > height {
      assert (shown + [bar])[|shown|] > height;
    }
  }

  /** Integral evaluated through the value and the memory the loop computes. */
  lemma IntegralAt(x: int, s: BarState, integral: real, height: int, v: int, m: int)
    requires integral > 0.0
    requires v == Trunc(s.mem as real * integral + x as real)
    requires m == MemoryDecay(v, height)
    ensures Integral(x, s, integral, height) == Step(v, s.(mem := m))
  {
  }

  /** The loop's sensitivity bookkeeping agrees with the frame-level controller. */
  lemma AutoSensOfLoop(sens0: real, first0: bool, sens: real, first: bool, frame: seq<int>,
                       height: int, autosens: bool, silence: bool, senselow: bool)
    requires autosens && !silence ==> (senselow <==> !Overshoots(frame, height))
    requires !(autosens && !silence) ==> senselow && sens == sens0 && first == first0
    requires autosens && !silence && senselow ==>
      first == first0 && sens == (if first0 then sens0 * RAISE * BOOST else sens0 * RAISE)
    requires !senselow ==> sens == sens0 * LOWER && !first
    ensures SensState(sens, first) == AutoSens(SensState(sens0, first0), frame, height, autosens, silence)
  {
  }
}
