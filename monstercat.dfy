/**
 * The monstercat filter: an in-place, order-dependent spreading of every
 * bar's height into its neighbours. Bar z is visited in turn (z = 0, 1, ...)
 * and every other bar m among the first `count` is raised to at least what
 * bar z lends it at distance d = |z - m|:
 *   wave mode:  bar z is first scaled by 1 / 1.25, then lends  bars[z] - d^2;
 *   decay mode: bar z lends  bars[z] / monstercat^d.
 * A later z still sees, and can raise, bars already visited.
 */
module Monstercat {
  import opened Numerics

  /** `bars[z] / 1.25` assigned back to an `int`. */
  function ScaleDown(x: int): (r: int)
    ensures x >= 0 ==> 0 <= r <= x
    ensures x <= 0 ==> x <= r <= 0
  {
    Trunc(x as real / 1.25)
  }

  lemma ScaleDownOfZero()
    ensures ScaleDown(0) == 0
  {
  }

  /** How far bar m is from bar z. */
  function Distance(z: int, m: int): nat
  {
    if m < z then z - m else m - z
  }

  /** What visiting bar z does in wave mode. */
  function WavePass(s: seq<int>, count: int, z: int): (r: seq<int>)
    requires 0 <= z < count <= |s|
    ensures |r| == |s|
  {
    var v := ScaleDown(s[z]);
    seq(|s|, m requires 0 <= m < |s| =>
      if m == z then v
      else if m < count then Max(v - Distance(z, m) * Distance(z, m), s[m])
      else s[m])
  }

  /** Wave mode after bars 0..k-1 have been visited. */
  function Waves(s: seq<int>, count: int, k: int): (r: seq<int>)
    requires 0 <= k <= count <= |s|
    ensures |r| == |s|
  {
    if k == 0 then s else WavePass(Waves(s, count, k - 1), count, k - 1)
  }

  /** What bar z lends bar m in decay mode: `bars[z] / pow(monstercat, d)`. */
  function Lent(x: int, monstercat: real, d: nat): real
    requires monstercat > 0.0
  {
    x as real / Pow(monstercat, d)
  }

  /** What visiting bar z does in decay mode. */
  function DecayPass(s: seq<int>, count: int, z: int, monstercat: real): (r: seq<int>)
    requires 0 <= z < count <= |s| && monstercat > 0.0
    ensures |r| == |s|
  {
    seq(|s|, m requires 0 <= m < |s| =>
      if m != z && m < count then
        var a := Lent(s[z], monstercat, Distance(z, m));
        if a > s[m] as real then Trunc(a) else s[m]
      else s[m])
  }

  /** Decay mode after bars 0..k-1 have been visited. */
  function Decay(s: seq<int>, count: int, k: int, monstercat: real): (r: seq<int>)
    requires 0 <= k <= count <= |s| && monstercat > 0.0
    ensures |r| == |s|
  {
    if k == 0 then s else DecayPass(Decay(s, count, k - 1, monstercat), count, k - 1, monstercat)
  }

  /** The whole filter: wave mode when waves > 0, else decay mode when monstercat > 0, else nothing. */
  function Filter(s: seq<int>, count: int, waves: int, monstercat: real): (r: seq<int>)
    requires 0 <= count <= |s|
    ensures |r| == |s|
  {
    if waves > 0 then Waves(s, count, count)
    else if monstercat > 0.0 then Decay(s, count, count, monstercat)
    else s
  }

  /** The frame loop calls the filter only when `monstercat` is non-zero. */
  function AtCallSite(s: seq<int>, count: int, waves: int, monstercat: real): (r: seq<int>)
    requires 0 <= count <= |s|
    ensures |r| == |s|
  {
    if monstercat != 0.0 then Filter(s, count, waves, monstercat) else s
  }

  /** With neither waves nor a positive monstercat factor, the bars are unchanged. */
  lemma FilterOff(s: seq<int>, count: int, waves: int, monstercat: real)
    requires 0 <= count <= |s| && waves <= 0 && monstercat <= 0.0
    ensures Filter(s, count, waves, monstercat) == s
    ensures AtCallSite(s, count, waves, monstercat) == s
  {
  }

  /**
   * A positive waves setting is ignored when monstercat is zero at the call
   * site, and takes precedence over a negative monstercat factor.
   */
  lemma WavesNeedMonstercat(s: seq<int>, count: int, waves: int, monstercat: real)
    requires 0 <= count <= |s| && waves > 0
    ensures AtCallSite(s, count, waves, monstercat) ==
            if monstercat == 0.0 then s else Waves(s, count, count)
  {
  }

  /** While bar z is visited in wave mode, every other bar only increases. */
  lemma WavePassRaisesOthers(s: seq<int>, count: int, z: int, m: int)
    requires 0 <= z < count <= |s| && 0 <= m < |s| && m != z
    ensures WavePass(s, count, z)[m] >= s[m]
  {
  }

  /** No bar at index count or beyond is touched. */
  lemma {:induction false} WavesFrame(s: seq<int>, count: int, k: int)
    requires 0 <= k <= count <= |s|
    ensures forall i :: count <= i < |s| ==> Waves(s, count, k)[i] == s[i]
  {
    if k > 0 {
      WavesFrame(s, count, k - 1);
    }
  }

  /** Bars within [0, bound] stay within [0, bound]: the filter never amplifies. */
  lemma {:induction false} WavesBounded(s: seq<int>, count: int, k: int, bound: int)
    requires 0 <= k <= count <= |s|
    requires forall i :: 0 <= i < |s| ==> 0 <= s[i] <= bound
    ensures forall i :: 0 <= i < |s| ==> 0 <= Waves(s, count, k)[i] <= bound
  {
    if k > 0 {
      WavesBounded(s, count, k - 1, bound);
      WavePassBounded(Waves(s, count, k - 1), count, k - 1, bound);
    }
  }

  lemma WavePassBounded(s: seq<int>, count: int, z: int, bound: int)
    requires 0 <= z < count <= |s|
    requires forall i :: 0 <= i < |s| ==> 0 <= s[i] <= bound
    ensures forall i :: 0 <= i < |s| ==> 0 <= WavePass(s, count, z)[i] <= bound
  {
    var r := WavePass(s, count, z);
    forall i | 0 <= i < |s| ensures 0 <= r[i] <= bound {
      SquareNonNegative(Distance(z, i));
    }
  }

  lemma SquareNonNegative(d: int)
    ensures d * d >= 0
  {
  }

  /** Non-negative bars stay non-negative. */
  lemma {:induction false} WavesNonNegative(s: seq<int>, count: int, k: int)
    requires 0 <= k <= count <= |s|
    requires forall i :: 0 <= i < |s| ==> s[i] >= 0
    ensures forall i :: 0 <= i < |s| ==> Waves(s, count, k)[i] >= 0
  {
    if k > 0 {
      WavesNonNegative(s, count, k - 1);
    }
  }

  /** An all-zero frame stays all zero. */
  lemma {:induction false} WavesZero(s: seq<int>, count: int, k: int)
    requires 0 <= k <= count <= |s|
    requires forall i :: 0 <= i < |s| ==> s[i] == 0
    ensures forall i :: 0 <= i < |s| ==> Waves(s, count, k)[i] == 0
  {
    if k > 0 {
      WavesZero(s, count, k - 1);
      ScaleDownOfZero();
      WavePassBounded(Waves(s, count, k - 1), count, k - 1, 0);
    }
  }

  /**
   * Wave mode is not the one-shot spread "V - d^2" of a lone bar of height V:
   * each bar is scaled down when it is visited, and the spread follows the
   * visiting order. A lone bar of 10 at index 1 of two bars ends as [7, 8].
   */
  lemma WavesLoneBar()
    ensures Waves([0, 10], 2, 2) == [7, 8]
  {
    assert ScaleDown(0) == 0;
    assert Waves([0, 10], 2, 1) == [0, 10];
    assert ScaleDown(10) == 8 by {
      assert 10 as real / 1.25 == 8.0;
    }
  }

  /** In decay mode no bar ever decreases. */
  lemma {:induction false} DecayRaises(s: seq<int>, count: int, k: int, monstercat: real)
    requires 0 <= k <= count <= |s| && monstercat > 0.0
    ensures forall i :: 0 <= i < |s| ==> Decay(s, count, k, monstercat)[i] >= s[i]
  {
    if k > 0 {
      DecayRaises(s, count, k - 1, monstercat);
    }
  }

  /** In decay mode, too, no bar at index count or beyond is touched. */
  lemma {:induction false} DecayFrame(s: seq<int>, count: int, k: int, monstercat: real)
    requires 0 <= k <= count <= |s| && monstercat > 0.0
    ensures forall i :: count <= i < |s| ==> Decay(s, count, k, monstercat)[i] == s[i]
  {
    if k > 0 {
      DecayFrame(s, count, k - 1, monstercat);
    }
  }

  /** With a factor of at least 1, bars within [0, bound] stay within [0, bound]. */
  lemma {:induction false} DecayBounded(s: seq<int>, count: int, k: int, monstercat: real, bound: int)
    requires 0 <= k <= count <= |s| && monstercat >= 1.0
    requires forall i :: 0 <= i < |s| ==> 0 <= s[i] <= bound
    ensures forall i :: 0 <= i < |s| ==> 0 <= Decay(s, count, k, monstercat)[i] <= bound
  {
    if k > 0 {
      DecayBounded(s, count, k - 1, monstercat, bound);
      var t := Decay(s, count, k - 1, monstercat);
      var r := DecayPass(t, count, k - 1, monstercat);
      forall m | 0 <= m < |s| && m != k - 1 && m < count
        ensures 0 <= r[m] <= bound
      {
        var d: nat := if m < k - 1 then k - 1 - m else m - (k - 1);
        LentBounded(t[k - 1], monstercat, d);
        TruncMonotone(Lent(t[k - 1], monstercat, d), bound as real);
        TruncOfInt(bound);
      }
    }
  }

  lemma LentBounded(x: int, monstercat: real, d: nat)
    requires monstercat >= 1.0 && x >= 0
    ensures 0.0 <= Lent(x, monstercat, d) <= x as real
  {
    var p := Pow(monstercat, d);
    assert x as real / p <= x as real by {
      assert x as real <= x as real * p;
    }
  }

  /**
   * The filter as the source runs it: in place on `bars`, over its first
   * `count` entries.
   */
  method MonstercatFilter(bars: array<int>, count: int, waves: int, monstercat: real)
    requires 0 <= count <= bars.Length
    modifies bars
    ensures bars[..] == Filter(old(bars[..]), count, waves, monstercat)
  {
    if waves > 0 {
      var z := 0;
      while z < count
        invariant 0 <= z <= count
        invariant bars[..] == Waves(old(bars[..]), count, z)
      {
        WavePassInPlace(bars, count, z);
        z := z + 1;
      }
    } else if monstercat > 0.0 {
      var z := 0;
      while z < count
        invariant 0 <= z <= count
        invariant bars[..] == Decay(old(bars[..]), count, z, monstercat)
      {
        DecayPassInPlace(bars, count, z, monstercat);
        z := z + 1;
      }
    }
  }

  /** The body of the wave-mode loop for one z: scale bar z, then spread left and right. */
  method WavePassInPlace(bars: array<int>, count: int, z: int)
    requires 0 <= z < count <= bars.Length
    modifies bars
    ensures bars[..] == WavePass(old(bars[..]), count, z)
  {
    ghost var before := bars[..];
    bars[z] := ScaleDown(bars[z]);
    var m := z - 1;
    while m >= 0
      invariant -1 <= m < z
      invariant bars[z] == ScaleDown(before[z])
      invariant forall k :: 0 <= k < bars.Length && k != z ==>
        bars[k] == if m < k < z then Max(bars[z] - Distance(z, k) * Distance(z, k), before[k]) else before[k]
    {
      var de := z - m;
      bars[m] := Max(bars[z] - de * de, bars[m]);
      m := m - 1;
    }
    m := z + 1;
    while m < count
      invariant z + 1 <= m <= count
      invariant bars[z] == ScaleDown(before[z])
      invariant forall k :: 0 <= k < bars.Length && k != z ==>
        bars[k] == if k < z || z < k < m then Max(bars[z] - Distance(z, k) * Distance(z, k), before[k]) else before[k]
    {
      var de := m - z;
      bars[m] := Max(bars[z] - de * de, bars[m]);
      m := m + 1;
    }
    assert bars[..] == WavePass(before, count, z);
  }

  /** The body of the decay-mode loop for one z. */
  method DecayPassInPlace(bars: array<int>, count: int, z: int, monstercat: real)
    requires 0 <= z < count <= bars.Length && monstercat > 0.0
    modifies bars
    ensures bars[..] == DecayPass(old(bars[..]), count, z, monstercat)
  {
    ghost var before := bars[..];
    var m := z - 1;
    while m >= 0
      invariant -1 <= m < z
      invariant forall k :: 0 <= k < bars.Length ==>
        bars[k] == if m < k < z then DecayPass(before, count, z, monstercat)[k] else before[k]
    {
      var de := z - m;
      var a := bars[z] as real / Pow(monstercat, de);
      bars[m] := if a > bars[m] as real then Trunc(a) else bars[m];
      m := m - 1;
    }
    m := z + 1;
    while m < count
      invariant z + 1 <= m <= count
      invariant forall k :: 0 <= k < bars.Length ==>
        bars[k] == if k < z || z < k < m then DecayPass(before, count, z, monstercat)[k] else before[k]
    {
      var de := m - z;
      var a := bars[z] as real / Pow(monstercat, de);
      bars[m] := if a > bars[m] as real then Trunc(a) else bars[m];
      m := m + 1;
    }
    assert bars[..] == DecayPass(before, count, z, monstercat);
  }
}
