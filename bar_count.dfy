/**
 * The number of bars: the requested count is forced into [1, MAX_BARS] and,
 * in stereo, made even; layout and extraction then work on half of it per
 * channel and double it again afterwards.
 */
module BarCount {

  /** Upper bound on the number of bars; also the length of every per-bar buffer. */
  const MAX_BARS: int := 1024

  /** The clamp into [1, MAX_BARS] that leads the computation. */
  function InRange(requested: int): (r: int)
    ensures 1 <= r <= MAX_BARS
    ensures 1 <= requested <= MAX_BARS ==> r == requested
    ensures requested < 1 ==> r == 1
    ensures requested > MAX_BARS ==> r == MAX_BARS
  {
    if requested < 1 then 1 else if requested > MAX_BARS then MAX_BARS else requested
  }

  /**
   * The bar count the main loop works with, computed by successive
   * reassignment of one variable. In mono it is the clamped request; in
   * stereo it is the clamped request made even by dropping one, so a stereo
   * request of 1 or less ends at 0.
   */
  method ClampBarCount(requested: int, stereo: bool) returns (n: int)
    ensures 0 <= n <= MAX_BARS
    ensures !stereo ==> n == InRange(requested)
    ensures stereo ==> n % 2 == 0 && InRange(requested) - 1 <= n <= InRange(requested)
    ensures stereo ==> (n == 0 <==> requested <= 1)
  {
    n := requested;
    if n < 1 {
      n := 1;
    }
    if n > MAX_BARS {
      n := MAX_BARS;
    }
    if stereo {
      if n % 2 != 0 {
        n := n - 1;
      }
    }
  }

  /**
   * The count used for layout and extraction, and the number of entries each
   * channel contributes to a frame of `n` bars: half of it in stereo.
   */
  function ChannelWidth(n: int, stereo: bool): int
  {
    if stereo then n / 2 else n
  }

  /**
   * Halving for layout and extraction and doubling afterwards gives back the
   * count that ClampBarCount produced, because in stereo that count is even.
   */
  lemma PerChannelRoundTrip(n: int, stereo: bool)
    requires stereo ==> n % 2 == 0
    ensures (if stereo then ChannelWidth(n, stereo) * 2 else ChannelWidth(n, stereo)) == n
  {
  }
}
