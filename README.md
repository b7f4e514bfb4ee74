# cava frame pipeline — a Dafny model

cava is a console audio visualizer. Each frame it turns the captured audio
into a row of bar heights. This project models the integer and array work in
`cava.c` that sits between the spectrum and the screen:

- **Bar count** (`BarCount`). The requested number of bars is clamped into
  `[1, MAX_BARS]` (MAX_BARS = 1024). In stereo it is then made even. Layout
  and extraction work on half of it per channel, and it is doubled again
  afterwards.
- **Bar layout** (`Layout`). Every boundary frequency gets a band (bass, mid
  or treble) and a lower FFT bin in that band's spectrum. The bar below a
  boundary gets an upper bin. Clumped bins are then reconciled so that every
  bar's bin range is non-empty, and consecutive bars of one band do not
  overlap. `ComputeLayout` is the
  loop, and `Reconciled` is its boundary-by-boundary specification. That
  specification has a unique solution, and a reconciled layout satisfies
  `ValidRanges`.
- **Monstercat filter** (`Monstercat`). This is the in-place smoothing of a
  channel's bar array. In wave mode each bar is scaled by 1/1.25, and then
  `bar − distance²` is spread to every other bar with `max`. In decay mode
  `bar / monstercat^distance` is spread instead. The array methods are proved
  equal to pure pass-by-pass functions, and the properties are proved about
  those functions.
- **Per-bar smoothing** (`Smoothing`), as pure steps on one bar's state
  `(last, peak, fall, mem)`:
  - which channel entry the bar shows (mirroring in stereo, reversal);
  - gravity falloff;
  - integral memory;
  - the floor of 1 in non-raw output;
  - the automatic sensitivity controller with its `(sens, first)` state.
- **The frame loop** (`Frame`). The class `Visualizer` holds the per-bar
  arrays, `sens`, `first` and the sleep counter. Its methods run one frame:
  1. the silence check;
  2. the sleep counter, which skips the frame once silence has lasted past
     `framerate × sleep_timer` frames;
  3. the monstercat call, made only when `monstercat` is non-zero;
  4. the per-bar loop, proved equal to the pure per-bar steps of `Smoothing`
     applied bar by bar;
  5. the sensitivity adjustment.

C's float→int conversions are modelled as truncation toward zero
(`Numerics.Trunc`). C's integer division `1 / (diff + 1)` is modelled as what
it is: 1 when `diff` is 0, otherwise 0.

## Model

| member | source | states |
|---|---|---|
| BarCount.InRange | cava.c:559-562 | The result is in [1, MAX_BARS]. It equals the request when the request is in range, 1 below the range and MAX_BARS above it. |
| BarCount.ClampBarCount | cava.c:559-567 | In mono the count is the clamped request. In stereo it is even and one less than the clamped request at most. A stereo request of 1 or less ends at 0. |
| BarCount.PerChannelRoundTrip | cava.c:588-590 | Halving an even stereo count to `ChannelWidth` for layout and extraction, and doubling it afterwards, gives back the same count. |
| Numerics.Trunc | cava.c:651 | Float→int conversion truncates toward zero: for x ≥ 0, r ≤ x < r+1; for x < 0, r−1 < x ≤ r. |
| Numerics.TruncMonotone | cava.c:938 | Truncation is monotone. |
| Layout.Classify | cava.c:648-674 | Bass iff f < 150 Hz. Mid iff 150 < f < 2500. Treble iff f = 150 or f ≥ 2500. |
| Layout.ClassifyAtBassCutOff | cava.c:648-674 | A boundary exactly at 150 Hz is tagged treble, while 151 Hz is mid. |
| Layout.ClassifyMonotone | cava.c:648-674 | Away from the 150 Hz quirk, a higher frequency never gets a lower band tag. |
| Layout.Tag | cava.c:650 | The stored band tag is 1, 2 or 3. |
| Layout.CountAll | cava.c:653-678 | The bass, mid and treble counts add up to the number of boundaries. |
| Layout.CountZero | cava.c:653-678 | A band's count is 0 exactly when no boundary has that band. |
| Layout.SameBandDoesNotOpen | cava.c:664-685 | A boundary in the same band as the one before never takes the band-opening branch. |
| Layout.ComputeLayout | cava.c:618-723 | Given at most MAX_BARS boundaries, the first of them in the bass band, the loop fills the bands, lower bins, upper bins and the two cut-off bars exactly as the boundary-by-boundary rule `Reconciled` says, and every bar's bin range is valid. |
| Layout.ReconciledIsValid | cava.c:691-717 | Any reconciled layout has lower ≤ upper for every bar. Within a band, bars are adjacent and strictly ascending. At a band opening, the bar below ends strictly above its own start. |
| Layout.ReconciledUnique | cava.c:618-723 | The reconciliation rule determines the layout completely: two reconciled layouts of the same frequencies are equal. |
| Layout.BinCount | cava.c:872 | The averaging divisor `upper − lower + 1` of every bar is at least 1. |
| Layout.DisjointWithinBand | cava.c:691-703 | Within a run of consecutive bars of one band, an earlier bar's range ends before a later bar's range starts. |
| Layout.OrderedFromFrequencies | cava.c:648-674 | Ascending boundary frequencies that avoid exactly 150 Hz give band tags in bass ≤ mid ≤ treble order. |
| Layout.OpensBandIffChange | cava.c:664-685 | With ordered tags, a boundary opens a band exactly when its tag differs from the previous one. |
| Layout.OrderedPrefix | cava.c:653-656 | With ordered tags, bar n is bass iff n < the bass count, and is not treble iff n < the bass plus mid count. |
| Layout.Bin | cava.c:651-652 | A boundary's bin is its share of the Nyquist frequency times half the FFT size, truncated. It is non-negative for a non-negative frequency and at most half the size up to the Nyquist frequency. |
| Layout.RawLower | cava.c:648-678 | A boundary's raw lower bin is measured in the spectrum of its own band. Between 0 and the Nyquist frequency it lies in [0, size/2] of that band's FFT. |
| Layout.TransitionUpper | cava.c:664-683 | The upper bin given to the bar below a band opening is measured in the spectrum below: the bass spectrum for a mid boundary, the mid spectrum for a treble one. It lies within half that spectrum's size. |
| Layout.SpectrumOf | cava.c:846-868 | The extraction loop reads the bass spectrum exactly for bars up to `bass_cut_off_bar`, the treble spectrum exactly for bars past both counters, and the mid spectrum otherwise. |
| Layout.SpectrumMatchesBand | cava.c:848-868 | With ascending tags (bass ≤ mid ≤ treble), the spectrum chosen for bar n from `bass_cut_off_bar` and `treble_cut_off_bar` is the band the bar was tagged with. |
| Layout.SpectrumAtBassCutOff | cava.c:648-689 | For boundaries 100, 150 and 200 Hz at 44100 Hz, every reconciled layout tags boundary 1 treble but the counters select the mid spectrum for bar 1. Its lower bin 3 comes from the treble spectrum and its upper bin 18 from the bass spectrum. |
| Layout.OverlapAtBassCutOff | cava.c:648-717 | For boundaries 100, 150, 200 and 300 Hz at 44100 Hz, every reconciled layout reads bars 1 and 2 from the mid spectrum, over bins 3..18 and 9..12. The second range lies inside the first. |
| Layout.BinsAt44100 | cava.c:651-683 | The truncated bins of those boundaries: 150 Hz in the treble FFT is bin 3, 200 Hz is bin 18 in the bass FFT and bin 9 in the mid FFT, and 300 Hz is bin 13 in the mid FFT. |
| Monstercat.ScaleDown | cava.c:150 | `x / 1.25`, truncated, stays between 0 and x. |
| Monstercat.ScaleDownOfZero | cava.c:150 | A zero bar stays zero when scaled. |
| Monstercat.MonstercatFilter | cava.c:141-176 | The in-place filter leaves the array equal to `Filter` of its old contents: wave passes when waves > 0, otherwise decay passes when monstercat > 0, otherwise nothing. |
| Monstercat.WavePassInPlace | cava.c:149-160 | One wave pass over the array in place equals `WavePass`: the centre is scaled first, and then each other bar becomes max(centre − distance², itself). |
| Monstercat.DecayPassInPlace | cava.c:162-172 | One decay pass in place equals `DecayPass`: each other bar becomes max(centre / monstercat^distance truncated, itself). |
| Monstercat.FilterOff | cava.c:141-176 | With waves ≤ 0 and monstercat ≤ 0 the array is unchanged, both by the filter and at the call site. |
| Monstercat.WavesNeedMonstercat | cava.c:894-904 | With waves > 0, the call site runs all wave passes exactly when monstercat is non-zero, even when it is negative. When monstercat is zero it leaves the array as it is. |
| Monstercat.WavePassRaisesOthers | cava.c:151-159 | During bar z's pass, every other bar only increases. |
| Monstercat.WavesFrame | cava.c:149 | No bar at index ≥ number_of_bars is touched. |
| Monstercat.WavesBounded | cava.c:149-160 | Bars in [0, bound] stay in [0, bound] after all wave passes. |
| Monstercat.WavePassBounded | cava.c:149-160 | One wave pass keeps bars in [0, bound]. |
| Monstercat.WavesNonNegative | cava.c:149-160 | Non-negative bars stay non-negative. |
| Monstercat.WavesZero | cava.c:149-160 | An all-zero array stays all-zero. |
| Monstercat.WavesLoneBar | cava.c:149-160 | A concrete case: [0, 10] becomes [7, 8], because each bar is scaled again when its own pass comes. |
| Monstercat.DecayRaises | cava.c:162-172 | Decay mode never lowers a bar. |
| Monstercat.DecayFrame | cava.c:162 | Decay mode does not touch bars at index ≥ number_of_bars. |
| Monstercat.DecayBounded | cava.c:162-172 | With monstercat ≥ 1, bars in [0, bound] stay in [0, bound]. |
| Monstercat.LentBounded | cava.c:166 | With monstercat ≥ 1, `x / monstercat^d` lies in [0, x] for x ≥ 0. |
| Smoothing.SourceOf | cava.c:910-933 | The entry bar n reads is within its channel's width. In mono it is always the left channel. In stereo it is the left channel exactly for the lower half. |
| Smoothing.BarOf | cava.c:910-933 | The bar that shows a valid channel entry is within [0, count). |
| Smoothing.SourceThenBar | cava.c:910-933 | Mapping a bar to its entry and back gives the same bar. |
| Smoothing.BarThenSource | cava.c:910-933 | Mapping an entry to its bar and back gives the same entry. |
| Smoothing.ReadExactlyOnce | cava.c:910-933 | Every valid channel entry is read by exactly one bar. |
| Smoothing.Gravity | cava.c:935-948 | With g > 0, a rising or equal input sets peak to it and fall to 0, a falling one keeps peak and increments fall, and last always ends equal to the emitted bar. With g ≤ 0 nothing changes. |
| Smoothing.GravityFallingOutput | cava.c:937-940 | A falling bar emits max(0, trunc(peak − g·fall²)). |
| Smoothing.GravityIgnoresFallingInput | cava.c:937-942 | While falling, the output and new state do not depend on the new input. |
| Smoothing.GravityFallNonIncreasing | cava.c:937-942 | Two falling frames in a row: the second emits no more than the first. |
| Smoothing.LongerFallIsLower | cava.c:938 | peak − g·(f+1)² < peak − g·f² for g > 0 and f ≥ 0. |
| Smoothing.Integral | cava.c:950-961 | The integral step touches only the memory. With integral ≤ 0 it changes nothing. |
| Smoothing.MemoryDecayFormula | cava.c:955-960 | The C decay `mem·(1 − div/20)`, with div = 1/(diff+1) in integer division, equals `MemoryDecay`: ×0.95 (truncated) when the bar is at or above the height, and unchanged below it. |
| Smoothing.IntegralKeepsBelowHeight | cava.c:952-960 | Below the height, the new memory equals the new bar. |
| Smoothing.IntegralDecaysAtHeight | cava.c:952-960 | At or above the height, the new memory is the bar ×0.95, truncated. |
| Smoothing.IntegralDecayLowers | cava.c:952-960 | At or above the height, a positive bar's memory ends strictly below the bar and non-negative. |
| Smoothing.IntegralNonNegative | cava.c:952-960 | Non-negative input and memory give a non-negative bar and memory. |
| Smoothing.FloorBar | cava.c:984-985 | In non-raw output the bar is at least 1. The floor never lowers a bar, and it leaves a raw or already positive bar unchanged. |
| Smoothing.BarStep | cava.c:935-985 | The whole per-bar step emits a bar ≥ 1 in non-raw output. |
| Smoothing.BarStepNonNegative | cava.c:935-985 | The per-bar step keeps a non-negative state non-negative. |
| Smoothing.AutoSensPositive | cava.c:987-1001 | A positive sensitivity stays positive. |
| Smoothing.AutoSensFirstEndsOnLowering | cava.c:987-1001 | `first` stays true exactly when it was true and the frame did not lower the sensitivity. |
| Smoothing.BoostRepeats | cava.c:997-1001 | From `first`, a run of frames with no bar above the height multiplies sens by (1.001·1.1) per frame and keeps `first`. The boost repeats and is not one-off. |
| Smoothing.RepeatedOvershoot | cava.c:987-994 | A run of frames that each have a bar above the height multiplies sens by 0.98 per frame, at most once per frame. The sensitivity stays positive, and after one such frame it is lower and `first` is false. |
| Frame.IsSilent | cava.c:800-807 | The scan reports silence exactly when every bass sample of both channels is zero. |
| Frame.SleepCounterBounded | cava.c:809-815 | The sleep counter never leaves [0, threshold + 1], and a frame with sound resets it to 0. |
| Frame.SilentFramesCount | cava.c:809-817 | k silent frames take the counter to min(c + k, threshold + 1). The loop sleeps exactly when c + k > threshold. |
| Frame.Visualizer.constructor | cava.c:509-514 | The per-bar arrays are allocated with MAX_BARS entries each (cava.c:509-514), `first` is true (set at cava.c:255) and the counter is 0. |
| Frame.Visualizer.ResetLayout | cava.c:520-527 | Every bar and every smoothing state entry is zero (cava.c:520-527), the counter is 0 (cava.c:761), and sens and first are kept. |
| Frame.Visualizer.SleepStep | cava.c:810-823 | With a sleep timer set, the counter advances by `SleepCounterNext`, and the frame is skipped iff the counter exceeds framerate × sleep_timer. Without a timer, nothing happens. |
| Frame.Visualizer.ApplyGravity | cava.c:935-948 | Bar n and its state become `Gravity` of the old ones. No other bar changes. |
| Frame.Visualizer.IntegrateBar | cava.c:952-953 | bars[n] becomes trunc(mem·integral + bar), and the memory becomes that value. |
| Frame.Visualizer.DecayMemory | cava.c:955-960 | The memory becomes `MemoryDecay` of its value. |
| Frame.Visualizer.ApplyIntegral | cava.c:950-961 | Bar n and its state become `Integral` of the old ones. |
| Frame.Visualizer.SmoothBar | cava.c:935-985 | Bar n and its state become `BarStep` of the input and the old state. |
| Frame.Visualizer.ProcessBar | cava.c:910-994 | Bar n shows its mapped entry, smoothed. Only entry n of the bars and states changes. The once-per-frame lowering rule holds. |
| Frame.Visualizer.BarLoop | cava.c:908-995 | After the loop, the first `count` bars and states are the pure per-bar steps of `FrameSteps`, and the rest are unchanged. `senselow` stays true exactly when no shown bar exceeds the height. |
| Frame.Visualizer.ProcessBars | cava.c:908-1001 | Bars and states equal `FrameSteps`. In non-raw output every bar is ≥ 1. (sens, first) becomes `AutoSens` of the old values over the shown frame. Non-negative state and inputs stay non-negative. |
| Frame.Visualizer.Tick | cava.c:800-1001 | One frame. The sleep counter follows the rule above. A skipped frame changes no bar, state, sensitivity or channel array. Otherwise the channel arrays become `AtCallSite` of their old contents. Bars and states become the per-bar steps over the filtered arrays, and sens and first follow `AutoSens`. |
| Frame.FrameNonNegative | cava.c:910-985 | A frame of per-bar steps over non-negative channel arrays keeps every state entry non-negative. |
| Frame.AutoSensOfLoop | cava.c:987-1001 | The loop's in-place lowering and the raise after the loop together give `AutoSens`. |

## Left out

- FFT plans and their execution (FFTW), the Hann window and the reduction of bin ranges to per-channel bar magnitudes (hypot, average, `sens·eq`, `ignore`) are not modelled. The filled channel arrays `bars_left` / `bars_right` are inputs to `Tick`.
- The boundary frequencies themselves are inputs to `ComputeLayout`: the logarithmic distribution, its linear extrapolation, the eq coefficients, the centre frequencies and the x-axis are floating-point work.
- The gravity constant `g` (cava.c:577, including the SDL factor 1.5) and `integral` (cava.c:585) are parameters.
- Layout.SpectrumMatchesBand: holds only when the tags are in bass ≤ mid ≤ treble order. Otherwise the counters select by position: the first `Count(Bass)` bars read the bass spectrum, the next `Count(Mid)` bars read the mid spectrum, and the rest read the treble spectrum, whatever their tags. A boundary at exactly 150 Hz after the bass band is tagged treble but is read from the mid spectrum when a mid boundary comes later (`SpectrumAtBassCutOff`). Its range can then overlap the next mid bar's range: for 100, 150, 200 and 300 Hz, bar 1 reads mid bins 3..18 and bar 2 reads mid bins 9..12 (`OverlapAtBassCutOff`). Bars of one band that are not consecutive, such as two treble bars with a mid bar between them, are not proved disjoint.
- Layout.ComputeLayout: when a lower bin is pushed up, the C code also recomputes `relative_cut_off[n]` and `cut_off_frequency[n]` from the corrected bin (cava.c:702-712). The extrapolation of the next boundary reads that value back (cava.c:625-629), so in the C the boundary frequencies depend on the reconciliation. The model takes the frequencies as given and does not write them back. Its properties hold for all inputs, so they cover whatever frequencies the C ends up classifying.
- Layout.ComputeLayout: requires at most MAX_BARS boundaries. The C's bin and frequency arrays have MAX_BARS entries, but the loop writes index `number_of_bars`, so a mono count of exactly MAX_BARS would write one past their end. The hard-coded count of 100 never reaches it.
- Layout.ComputeLayout: requires the first boundary to be bass. A first boundary in the mid or treble band would make the C code write `FFTbuffer_upper_cut_off[-1]`.
- Floating-point rounding is not modelled. Every `float`/`double` is an exact real, and only the float→int truncations are explicit. `bars_peak` is a `float` array, but it only ever holds integers, so it is modelled as `int`.
- C `int` overflow is not modelled: integers are unbounded.
- `number_of_bars` is hard-coded to 100 before the clamp, but the clamp is modelled for any request.
- `output_mode` is forced to the non-raw, non-SDL terminal mode. `raw` is kept as a configuration parameter, and the SDL guard around the sleep check is not modelled.
- The sleep itself (`nanosleep`) is left out. The frame is only reported as skipped.
- The `previous_frame` array is left out: it is reset with the others, but none of the modelled steps reads it.
- The audio-capture thread, its mutex, startup polling, config loading and reloading, the terminal, signals, the display, rendering and debug printing are outside the model.
- The four per-bar arrays `bars_last`, `bars_peak`, `fall` and `bars_mem` are kept as arrays. Contracts speak of them through one sequence of per-bar states.
- Two behaviours of the code worth knowing:
  - In wave mode a lone bar does not spread as `v − d²`: each bar is scaled by 1/1.25 at its own pass (`WavesLoneBar`).
  - The integral memory decays only once the bar reaches the height, because `1/(diff+1)` is integer division (`MemoryDecayFormula`).
