/**
 * The bar layout computed once per layout pass: every boundary n = 0..N gets a
 * band (bass, mid or treble), a lower FFT bin in that band's spectrum, and the
 * bar n-1 below it gets its upper bin, so that every bar 0..N-1 reads a
 * non-empty bin range of one spectrum.
 *
 * The boundary frequencies themselves (the logarithmic distribution and its
 * linear extrapolation) are floating-point work and are taken as inputs.
 */
module Layout {
  import opened Numerics
  import BarCount

  /** Band edges in Hz. */
  const BASS_CUT_OFF: real := 150.0
  const TREBLE_CUT_OFF: real := 2500.0

  /** FFT sizes of the three bands: 4, 2 and 1 times MAX_BARS. */
  const BASS_BUFFER_SIZE: int := BarCount.MAX_BARS * 4
  const MID_BUFFER_SIZE: int := BarCount.MAX_BARS * 2
  const TREBLE_BUFFER_SIZE: int := BarCount.MAX_BARS

  datatype Band = Bass | Mid | Treble

  /** The tag the source stores for a band (1, 2 or 3). */
  function Tag(b: Band): (t: int)
    ensures 1 <= t <= 3
  {
    match b
    case Bass => 1
    case Mid => 2
    case Treble => 3
  }

  function BufferSize(b: Band): int
  {
    match b
    case Bass => BASS_BUFFER_SIZE
    case Mid => MID_BUFFER_SIZE
    case Treble => TREBLE_BUFFER_SIZE
  }

  /**
   * Classification of a boundary frequency. A frequency exactly equal to the
   * bass edge fails both the `<` and the `>` test and lands in treble.
   */
  function Classify(f: real): (b: Band)
    ensures b == Bass <==> f < BASS_CUT_OFF
    ensures b == Mid <==> BASS_CUT_OFF < f < TREBLE_CUT_OFF
    ensures b == Treble <==> f == BASS_CUT_OFF || f >= TREBLE_CUT_OFF
  {
    if f < BASS_CUT_OFF then Bass
    else if f > BASS_CUT_OFF && f < TREBLE_CUT_OFF then Mid
    else Treble
  }

  /** The bass-edge quirk: 150 Hz is treble while 151 Hz is mid. */
  lemma ClassifyAtBassCutOff()
    ensures Classify(BASS_CUT_OFF) == Treble && Classify(151.0) == Mid
  {
  }

  /**
   * Away from the bass edge, classification is monotone in the frequency, so
   * ascending boundary frequencies give ascending band tags.
   */
  lemma ClassifyMonotone(f1: real, f2: real)
    requires f1 <= f2 && f1 != BASS_CUT_OFF && f2 != BASS_CUT_OFF
    ensures Tag(Classify(f1)) <= Tag(Classify(f2))
  {
  }

  /**
   * The FFT bin of a frequency in a spectrum of `size` points: the relative
   * frequency f / (rate / 2), with integer halving of the rate, times half the
   * size, truncated toward zero.
   */
  function Bin(f: real, rate: int, size: int): (r: int)
    requires rate >= 2
    ensures size >= 0 && f >= 0.0 ==> r >= 0
    ensures size >= 0 && 0.0 <= f <= (rate / 2) as real ==> r <= size / 2
  {
    var x := f / ((rate / 2) as real) * ((size / 2) as real);
    FractionBounds(f, (rate / 2) as real, size / 2, x);
    Trunc(x)
  }

  /**
   * A fraction x = f / h of a non-negative scale s, for 0 <= f: non-negative,
   * and at most s when f <= h.
   */
  lemma FractionBounds(f: real, h: real, s: int, x: real)
    requires h > 0.0 && x == f / h * (s as real)
    ensures s >= 0 && f >= 0.0 ==> 0.0 <= x && Trunc(x) >= 0
    ensures s >= 0 && 0.0 <= f <= h ==> Trunc(x) <= s
  {
    var q := f / h;
    assert q * h == f;
    if s >= 0 && f >= 0.0 {
      assert q >= 0.0;
      assert x >= 0.0;
      if f <= h {
        assert (1.0 - q) * h == h - f;
        PositiveFactor(1.0 - q, h);
        assert (1.0 - q) * (s as real) >= 0.0;
        assert x <= s as real;
      }
    }
  }

  lemma PositiveFactor(a: real, h: real)
    requires h > 0.0 && a * h >= 0.0
    ensures a >= 0.0
  {
  }

  /** The lower bin the classification step assigns to boundary n. */
  function RawLower(freq: seq<real>, rate: int, n: int): (r: int)
    requires rate >= 2 && 0 <= n < |freq|
    ensures 0.0 <= freq[n] <= (rate / 2) as real ==> 0 <= r <= BufferSize(Classify(freq[n])) / 2
  {
    Bin(freq[n], rate, BufferSize(Classify(freq[n])))
  }

  /**
   * The upper bin assigned to bar n-1 when boundary n opens a band: boundary
   * n's frequency measured in the spectrum of the band below it (the bass
   * spectrum for the first mid boundary, the mid spectrum for the first treble
   * boundary, whatever band bar n-1 is in).
   */
  function TransitionUpper(freq: seq<real>, rate: int, n: int): (r: int)
    requires rate >= 2 && 0 <= n < |freq|
    ensures Classify(freq[n]) == Mid && freq[n] <= (rate / 2) as real ==> 0 <= r <= BASS_BUFFER_SIZE / 2
    ensures Classify(freq[n]) != Mid && 0.0 <= freq[n] <= (rate / 2) as real ==> 0 <= r <= MID_BUFFER_SIZE / 2
  {
    Bin(freq[n], rate, if Classify(freq[n]) == Mid then BASS_BUFFER_SIZE else MID_BUFFER_SIZE)
  }

  /** The number of boundaries tagged `b`, counted front to back. */
  function Count(tags: seq<Band>, b: Band): (c: nat)
    ensures c <= |tags|
  {
    if tags == [] then 0
    else Count(tags[..|tags| - 1], b) + (if tags[|tags| - 1] == b then 1 else 0)
  }

  lemma {:induction false} CountZero(tags: seq<Band>, b: Band)
    ensures Count(tags, b) == 0 <==> b !in tags
  {
    if tags != [] {
      var init := tags[..|tags| - 1];
      CountZero(init, b);
      assert tags == init + [tags[|tags| - 1]];
    }
  }

  lemma CountAll(tags: seq<Band>)
    ensures Count(tags, Bass) + Count(tags, Mid) + Count(tags, Treble) == |tags|
  {
  }

  /**
   * Boundary n opens a band: it is mid or treble and no earlier boundary has
   * its band. This is exactly when the source's first-bar flag is set at n > 0
   * (the mid counter difference or the treble counter reaching 1).
   */
  predicate OpensBand(tags: seq<Band>, n: int)
    requires 0 <= n < |tags|
  {
    n > 0 && tags[n] != Bass && tags[n] !in tags[..n]
  }

  /**
   * What the layout pass computes.
   * band: the tag of each boundary 0..N;
   * lower: the lower bin of each boundary 0..N (bar n reads from lower[n]);
   * upper: the upper bin of each bar 0..N-1;
   * bassCutOffBar, trebleCutOffBar: the last bar index read from the bass
   * spectrum, and from the bass or mid spectrum.
   */
  datatype BarLayout = BarLayout(
    band: seq<Band>,
    lower: seq<int>,
    upper: seq<int>,
    bassCutOffBar: int,
    trebleCutOffBar: int)

  /**
   * The layout as a whole, boundary by boundary. Inside a band, a boundary's
   * lower bin is pushed one past the previous one when it would not exceed it,
   * and the bar below ends one bin before it. At a boundary that opens a band,
   * the lower bin is kept and the bar below gets the transition bin, raised to
   * one past its own lower bin when it would not exceed it.
   */
  predicate Reconciled(freq: seq<real>, rate: int, l: BarLayout)
    requires rate >= 2
  {
    && |freq| >= 1
    && |l.band| == |freq| && |l.lower| == |freq| && |l.upper| == |freq| - 1
    && (forall n :: 0 <= n < |freq| ==> l.band[n] == Classify(freq[n]))
    && l.lower[0] == RawLower(freq, rate, 0)
    && (forall n :: 1 <= n < |freq| ==> BoundaryReconciled(freq, rate, l.band, l.lower, l.upper, n))
    && l.bassCutOffBar == Count(l.band, Bass) - 1
    && l.trebleCutOffBar == Count(l.band, Bass) + Count(l.band, Mid) - 1
  }

  /** The rule for one boundary n >= 1 and the bar n-1 below it. */
  predicate BoundaryReconciled(freq: seq<real>, rate: int, band: seq<Band>, lower: seq<int>, upper: seq<int>, n: int)
    requires rate >= 2 && 1 <= n < |freq| && n < |band| && n < |lower| && n - 1 < |upper|
  {
    if OpensBand(band, n) then
      && lower[n] == RawLower(freq, rate, n)
      && upper[n - 1] == Max(TransitionUpper(freq, rate, n), lower[n - 1] + 1)
    else
      && lower[n] == Max(RawLower(freq, rate, n), lower[n - 1] + 1)
      && upper[n - 1] == lower[n] - 1
  }

  /**
   * Every bar has a usable bin range: lower <= upper for every bar; inside a
   * band consecutive bars are adjacent and strictly ascending; at a band
   * opening the bar below ends strictly above its own start.
   */
  predicate ValidRanges(l: BarLayout)
  {
    && |l.band| == |l.lower| == |l.upper| + 1
    && (forall n :: 0 <= n < |l.upper| ==> l.lower[n] <= l.upper[n])
    && (forall n :: 1 <= n < |l.lower| && l.band[n] == l.band[n - 1] ==>
          l.lower[n - 1] < l.lower[n] && l.upper[n - 1] == l.lower[n] - 1)
    && (forall n :: 1 <= n < |l.lower| && OpensBand(l.band, n) ==>
          l.lower[n - 1] < l.upper[n - 1])
  }

  /** A boundary whose band equals the previous boundary's never opens a band. */
  lemma SameBandDoesNotOpen(tags: seq<Band>, n: int)
    requires 1 <= n < |tags| && tags[n] == tags[n - 1]
    ensures !OpensBand(tags, n)
  {
    assert tags[..n][n - 1] == tags[n - 1];
  }

  lemma ReconciledIsValid(freq: seq<real>, rate: int, l: BarLayout)
    requires rate >= 2 && Reconciled(freq, rate, l)
    ensures ValidRanges(l)
  {
    forall n | 0 <= n < |l.upper| ensures l.lower[n] <= l.upper[n] {
      assert BoundaryReconciled(freq, rate, l.band, l.lower, l.upper, n + 1);
    }
    forall n | 1 <= n < |l.lower| && l.band[n] == l.band[n - 1]
      ensures l.lower[n - 1] < l.lower[n] && l.upper[n - 1] == l.lower[n] - 1
    {
      SameBandDoesNotOpen(l.band, n);
      assert BoundaryReconciled(freq, rate, l.band, l.lower, l.upper, n);
    }
    forall n | 1 <= n < |l.lower| && OpensBand(l.band, n)
      ensures l.lower[n - 1] < l.upper[n - 1]
    {
      assert BoundaryReconciled(freq, rate, l.band, l.lower, l.upper, n);
    }
  }

  /**
   * The divisor of the per-bar average: the number of bins bar n reads.
   */
  function BinCount(l: BarLayout, n: int): (c: int)
    requires ValidRanges(l) && 0 <= n < |l.upper|
    ensures c >= 1
  {
    l.upper[n] - l.lower[n] + 1
  }

  /**
   * Inside one band, bars do not overlap at all: any bar ends before every
   * later bar of the same band starts.
   */
  lemma {:induction false} DisjointWithinBand(l: BarLayout, i: int, j: int)
    requires ValidRanges(l)
    requires 0 <= i < j < |l.lower|
    requires forall k :: i <= k <= j ==> l.band[k] == l.band[i]
    ensures l.upper[i] < l.lower[j]
  {
    if j > i + 1 {
      DisjointWithinBand(l, i, j - 1);
    }
  }

  /** The tags ascend: bass boundaries first, then mid, then treble. */
  predicate Ordered(tags: seq<Band>)
  {
    forall i, j :: 0 <= i <= j < |tags| ==> Tag(tags[i]) <= Tag(tags[j])
  }

  /** Ascending frequencies that avoid the bass edge give ascending tags. */
  lemma OrderedFromFrequencies(freq: seq<real>, rate: int, l: BarLayout)
    requires rate >= 2 && Reconciled(freq, rate, l)
    requires forall i, j :: 0 <= i <= j < |freq| ==> freq[i] <= freq[j]
    requires forall i :: 0 <= i < |freq| ==> freq[i] != BASS_CUT_OFF
    ensures Ordered(l.band)
  {
    forall i, j | 0 <= i <= j < |l.band| ensures Tag(l.band[i]) <= Tag(l.band[j]) {
      ClassifyMonotone(freq[i], freq[j]);
    }
  }

  /** With ascending tags, a boundary opens a band exactly when its band changes. */
  lemma OpensBandIffChange(tags: seq<Band>, n: int)
    requires Ordered(tags) && 1 <= n < |tags|
    ensures OpensBand(tags, n) <==> tags[n] != tags[n - 1]
  {
    if tags[n] != tags[n - 1] {
      assert Tag(tags[n - 1]) < Tag(tags[n]);
      forall k | 0 <= k < n ensures tags[..n][k] != tags[n] {
        assert Tag(tags[k]) <= Tag(tags[n - 1]);
      }
    } else {
      SameBandDoesNotOpen(tags, n);
    }
  }

  /**
   * With ascending tags, the first Count(tags, Bass) boundaries are the bass
   * ones, and the first Count(Bass) + Count(Mid) are the bass and mid ones.
   */
  lemma {:induction false} OrderedPrefix(tags: seq<Band>, n: int)
    requires Ordered(tags) && 0 <= n < |tags|
    ensures tags[n] == Bass <==> n < Count(tags, Bass)
    ensures tags[n] != Treble <==> n < Count(tags, Bass) + Count(tags, Mid)
  {
    var last := |tags| - 1;
    var init := tags[..last];
    assert Ordered(init);
    if n < last {
      OrderedPrefix(init, n);
      if tags[last] == Bass {
        assert Tag(tags[n]) <= Tag(tags[last]);
      } else if tags[last] == Mid {
        assert Tag(tags[n]) <= Tag(tags[last]);
      }
    } else {
      CountAll(init);
      if tags[n] == Bass {
        assert forall k :: 0 <= k < last ==> Tag(init[k]) <= Tag(tags[n]);
        assert Bass !in init[..0];
        CountZeroNone(init, Mid);
        CountZeroNone(init, Treble);
      } else if tags[n] == Mid {
        assert forall k :: 0 <= k < last ==> Tag(init[k]) <= Tag(tags[n]);
        CountZeroNone(init, Treble);
      }
    }
  }

  /** Count is zero for a band whose tag exceeds every tag present. */
  lemma CountZeroNone(tags: seq<Band>, b: Band)
    requires forall k :: 0 <= k < |tags| ==> tags[k] != b
    ensures Count(tags, b) == 0
  {
    CountZero(tags, b);
  }

  /**
   * The spectrum the extraction loop reads for bar n, chosen by the two
   * counters of the layout pass.
   */
  function SpectrumOf(n: int, bassCutOffBar: int, trebleCutOffBar: int): (r: Band)
    ensures r == Bass <==> n <= bassCutOffBar
    ensures r == Treble <==> n > bassCutOffBar && n > trebleCutOffBar
  {
    if n <= bassCutOffBar then Bass
    else if n > bassCutOffBar && n <= trebleCutOffBar then Mid
    else Treble
  }

  /**
   * With ascending tags, the counters select for each bar the spectrum of the
   * band its lower boundary was classified into.
   */
  lemma SpectrumMatchesBand(freq: seq<real>, rate: int, l: BarLayout, n: int)
    requires rate >= 2 && Reconciled(freq, rate, l) && Ordered(l.band)
    requires 0 <= n < |l.band|
    ensures SpectrumOf(n, l.bassCutOffBar, l.trebleCutOffBar) == l.band[n]
  {
    OrderedPrefix(l.band, n);
  }

  /**
   * Without ascending tags the counters select by position, not by tag. A
   * boundary at exactly the bass cut-off that follows the bass band is tagged
   * treble, and a later mid boundary makes that bar fall in the mid range of
   * the counters: bar 1 takes its lower bin (3) from the treble spectrum and
   * its upper bin (18) from the bass spectrum, and is then read from the mid
   * spectrum.
   */
  lemma SpectrumAtBassCutOff(l: BarLayout)
    requires Reconciled([100.0, 150.0, 200.0], 44100, l)
    ensures l.band == [Bass, Treble, Mid]
    ensures SpectrumOf(1, l.bassCutOffBar, l.trebleCutOffBar) == Mid
    ensures l.lower[1] == 3 && l.upper[1] == 18
  {
    var freq := [100.0, 150.0, 200.0];
    assert l.band[0] == Classify(freq[0]) && l.band[1] == Classify(freq[1]) && l.band[2] == Classify(freq[2]);
    assert l.band == [Bass, Treble, Mid];
    assert l.band[..2] == [Bass, Treble] && l.band[..2][..1] == [Bass] && [Bass][..0] == [];
    assert Count([Bass], Bass) == 1 && Count([Bass], Mid) == 0;
    assert Count([Bass, Treble], Bass) == 1 && Count([Bass, Treble], Mid) == 0;
    assert Count(l.band, Bass) == 1 && Count(l.band, Mid) == 1;
    assert BoundaryReconciled(freq, 44100, l.band, l.lower, l.upper, 1);
    assert BoundaryReconciled(freq, 44100, l.band, l.lower, l.upper, 2);
    assert OpensBand(l.band, 1) && OpensBand(l.band, 2);
    BinsAt44100();
    assert l.lower[1] == Bin(150.0, 44100, TREBLE_BUFFER_SIZE);
    assert TransitionUpper(freq, 44100, 2) == Bin(200.0, 44100, BASS_BUFFER_SIZE);
  }

  /**
   * The same quirk makes bin ranges overlap. With a second mid boundary, bars
   * 1 and 2 are both read from the mid spectrum, bar 1 over bins 3..18 and
   * bar 2 over bins 9..12.
   */
  lemma OverlapAtBassCutOff(l: BarLayout)
    requires Reconciled([100.0, 150.0, 200.0, 300.0], 44100, l)
    ensures l.band == [Bass, Treble, Mid, Mid]
    ensures SpectrumOf(1, l.bassCutOffBar, l.trebleCutOffBar) == Mid
    ensures SpectrumOf(2, l.bassCutOffBar, l.trebleCutOffBar) == Mid
    ensures l.lower[1] == 3 && l.upper[1] == 18 && l.lower[2] == 9 && l.upper[2] == 12
    ensures l.lower[1] <= l.lower[2] <= l.upper[2] <= l.upper[1]
  {
    var freq := [100.0, 150.0, 200.0, 300.0];
    assert l.band[0] == Classify(freq[0]) && l.band[1] == Classify(freq[1]);
    assert l.band[2] == Classify(freq[2]) && l.band[3] == Classify(freq[3]);
    assert l.band == [Bass, Treble, Mid, Mid];
    assert l.band[..3] == [Bass, Treble, Mid] && l.band[..3][..2] == [Bass, Treble];
    assert [Bass, Treble][..1] == [Bass] && [Bass][..0] == [];
    assert Count([Bass], Bass) == 1 && Count([Bass], Mid) == 0;
    assert Count([Bass, Treble], Bass) == 1 && Count([Bass, Treble], Mid) == 0;
    assert Count([Bass, Treble, Mid], Bass) == 1 && Count([Bass, Treble, Mid], Mid) == 1;
    assert Count(l.band, Bass) == 1 && Count(l.band, Mid) == 2;
    assert BoundaryReconciled(freq, 44100, l.band, l.lower, l.upper, 1);
    assert BoundaryReconciled(freq, 44100, l.band, l.lower, l.upper, 2);
    assert BoundaryReconciled(freq, 44100, l.band, l.lower, l.upper, 3);
    assert OpensBand(l.band, 1) && OpensBand(l.band, 2);
    assert l.band[..3] == [Bass, Treble, Mid];
    assert !OpensBand(l.band, 3);
    BinsAt44100();
    assert l.lower[1] == Bin(150.0, 44100, TREBLE_BUFFER_SIZE);
    assert TransitionUpper(freq, 44100, 2) == Bin(200.0, 44100, BASS_BUFFER_SIZE);
    assert l.lower[2] == Bin(200.0, 44100, MID_BUFFER_SIZE);
    assert RawLower(freq, 44100, 3) == Bin(300.0, 44100, MID_BUFFER_SIZE);
  }

  /** The bins of the two examples above, at a 44100 Hz rate. */
  lemma BinsAt44100()
    ensures Bin(150.0, 44100, TREBLE_BUFFER_SIZE) == 3
    ensures Bin(200.0, 44100, BASS_BUFFER_SIZE) == 18
    ensures Bin(200.0, 44100, MID_BUFFER_SIZE) == 9
    ensures Bin(300.0, 44100, MID_BUFFER_SIZE) == 13
  {
  }

  /** A reconciled layout is determined by its inputs: the pass is deterministic. */
  lemma ReconciledUnique(freq: seq<real>, rate: int, l1: BarLayout, l2: BarLayout)
    requires rate >= 2 && Reconciled(freq, rate, l1) && Reconciled(freq, rate, l2)
    ensures l1 == l2
  {
    assert l1.band == l2.band;
    LowerAgree(freq, rate, l1, l2, |freq| - 1);
    assert l1.lower == l2.lower;
    forall n | 0 <= n < |l1.upper| ensures l1.upper[n] == l2.upper[n] {
      assert BoundaryReconciled(freq, rate, l1.band, l1.lower, l1.upper, n + 1);
      assert BoundaryReconciled(freq, rate, l2.band, l2.lower, l2.upper, n + 1);
    }
    assert l1.upper == l2.upper;
  }

  lemma {:induction false} LowerAgree(freq: seq<real>, rate: int, l1: BarLayout, l2: BarLayout, k: int)
    requires rate >= 2 && Reconciled(freq, rate, l1) && Reconciled(freq, rate, l2)
    requires 0 <= k < |freq|
    ensures forall n :: 0 <= n <= k ==> l1.lower[n] == l2.lower[n]
  {
    assert l1.band == l2.band;
    if k > 0 {
      LowerAgree(freq, rate, l1, l2, k - 1);
      assert BoundaryReconciled(freq, rate, l1.band, l1.lower, l1.upper, k);
      assert BoundaryReconciled(freq, rate, l2.band, l2.lower, l2.upper, k);
    }
  }

  /**
   * Extending the tags, lower bins and upper bins at their ends keeps the
   * rule of every boundary already processed.
   */
  lemma ExtendPrefix(freq: seq<real>, rate: int,
                     band0: seq<Band>, lower0: seq<int>, upper0: seq<int>,
                     band: seq<Band>, lower: seq<int>, upper: seq<int>, n: int)
    requires rate >= 2 && 1 <= n < |freq|
    requires |band0| == n && |lower0| == n && |upper0| == n - 1
    requires |band| == n + 1 && |lower| == n + 1 && |upper| == n
    requires band[..n] == band0 && lower[..n] == lower0 && upper[..n - 1] == upper0
    requires forall k :: 1 <= k < n ==> BoundaryReconciled(freq, rate, band0, lower0, upper0, k)
    ensures forall k :: 1 <= k < n ==> BoundaryReconciled(freq, rate, band, lower, upper, k)
  {
    forall k | 1 <= k < n ensures BoundaryReconciled(freq, rate, band, lower, upper, k) {
      assert band[..k] == band0[..k];
      assert BoundaryReconciled(freq, rate, band0, lower0, upper0, k);
      assert lower[k] == lower0[k] && lower[k - 1] == lower0[k - 1] && upper[k - 1] == upper0[k - 1];
      assert band[k] == band0[k];
    }
  }

  /**
   * The layout loop. Boundaries are taken in order; each is classified and
   * given its raw lower bin, the band counters advance, and the bar below is
   * closed either at a band opening (transition bin) or inside a band (one
   * before this boundary's bin, which is pushed up when clumped).
   * Boundary 0 must be bass: otherwise the source writes the upper bin of bar -1.
   * At most MAX_BARS boundaries: the source's bin arrays have MAX_BARS entries.
   */
  method ComputeLayout(freq: seq<real>, rate: int) returns (l: BarLayout)
    requires rate >= 2
    requires |freq| >= 1
    requires freq[0] < BASS_CUT_OFF
    requires |freq| <= BarCount.MAX_BARS
    ensures Reconciled(freq, rate, l)
    ensures ValidRanges(l)
  {
    var bassCutOffBar := -1;
    var trebleCutOffBar := -1;
    var firstBar := true;
    var firstTrebleBar := 0;
    var band: seq<Band> := [];
    var lower: seq<int> := [];
    var upper: seq<int> := [];
    var n := 0;
    while n < |freq|
      invariant 0 <= n <= |freq|
      invariant |band| == n && |lower| == n && |upper| == if n == 0 then 0 else n - 1
      invariant forall k :: 0 <= k < n ==> band[k] == Classify(freq[k])
      invariant n > 0 ==> lower[0] == RawLower(freq, rate, 0) && Count(band, Bass) >= 1
      invariant forall k :: 1 <= k < n ==> BoundaryReconciled(freq, rate, band, lower, upper, k)
      invariant bassCutOffBar == Count(band, Bass) - 1
      invariant trebleCutOffBar == Count(band, Bass) + Count(band, Mid) - 1
      invariant firstTrebleBar == Count(band, Treble)
    {
      var f := freq[n];
      ghost var band0, lower0, upper0 := band, lower, upper;
      if f < BASS_CUT_OFF {
        band := band + [Bass];
        lower := lower + [Bin(f, rate, BASS_BUFFER_SIZE)];
        bassCutOffBar := bassCutOffBar + 1;
        trebleCutOffBar := trebleCutOffBar + 1;
        if bassCutOffBar > 0 {
          firstBar := false;
        }
      } else if f > BASS_CUT_OFF && f < TREBLE_CUT_OFF {
        band := band + [Mid];
        lower := lower + [Bin(f, rate, MID_BUFFER_SIZE)];
        trebleCutOffBar := trebleCutOffBar + 1;
        if trebleCutOffBar - bassCutOffBar == 1 {
          firstBar := true;
          upper := upper + [Bin(f, rate, BASS_BUFFER_SIZE)];
        } else {
          firstBar := false;
        }
      } else {
        band := band + [Treble];
        lower := lower + [Bin(f, rate, TREBLE_BUFFER_SIZE)];
        firstTrebleBar := firstTrebleBar + 1;
        if firstTrebleBar == 1 {
          firstBar := true;
          upper := upper + [Bin(f, rate, MID_BUFFER_SIZE)];
        } else {
          firstBar := false;
        }
      }
      assert band[..n] == band0 && band[n] == Classify(f);
      assert lower[n] == RawLower(freq, rate, n);
      assert Count(band, Bass) == Count(band0, Bass) + (if band[n] == Bass then 1 else 0);
      assert Count(band, Mid) == Count(band0, Mid) + (if band[n] == Mid then 1 else 0);
      assert Count(band, Treble) == Count(band0, Treble) + (if band[n] == Treble then 1 else 0);
      CountZero(band0, band[n]);
      assert n > 0 ==> (firstBar <==> OpensBand(band, n));
      assert firstBar && n > 0 ==> upper[n - 1] == TransitionUpper(freq, rate, n);
      if n > 0 {
        if !firstBar {
          upper := upper + [lower[n] - 1];
          if lower[n] <= lower[n - 1] {
            lower := lower[n := lower[n - 1] + 1];
            upper := upper[n - 1 := lower[n] - 1];
          }
        } else {
          if upper[n - 1] <= lower[n - 1] {
            upper := upper[n - 1 := lower[n - 1] + 1];
          }
        }
        assert BoundaryReconciled(freq, rate, band, lower, upper, n);
        ExtendPrefix(freq, rate, band0, lower0, upper0, band, lower, upper, n);
      }
      n := n + 1;
    }
    l := BarLayout(band, lower, upper, bassCutOffBar, trebleCutOffBar);
    ReconciledIsValid(freq, rate, l);
  }
}
