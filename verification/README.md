# Voice-Autication audio features, modelled in Dafny

The project models the audio core of Voice-Autication. That core has two halves.

- **Feature extraction** (`src/utils/audio/features.ts`) turns mono PCM samples into an `AudioFeatures` record:
  - a single time-domain scan computes the sum of squares, the zero-crossing counter and the peak absolute amplitude;
  - the energy is the root mean square;
  - the waveform is normalised by the peak;
  - a 2048-entry analysis buffer is built, windowed, and reduced to a 1024-bin "spectrum";
  - the spectral centroid and the spectral flatness are computed from that spectrum.
- **Feature comparison** (`src/utils/audio/comparison.ts`) scores two records:
  - `compareValues` measures relative closeness;
  - `compareWaveforms` subsamples both waveforms by floored index arithmetic;
  - the five similarities are blended with fixed weights;
  - the result is multiplied by a duration penalty.

All numbers are Dafny `real`s: exact, with no rounding and no NaN.

Files:

- `JsMath.dfy` defines the parts of JavaScript's `Math` the code calls.
  - `abs`, `max` and `min` are defined exactly.
  - `sqrt`, `log` and `exp` are passed in as function values. The only laws assumed of them are:
    - `IsSqrt`: the result is non-negative and its square is the argument;
    - `IsLnExp`: `exp` undoes `log` on positive numbers, and `exp` is positive.
- `Features.dfy` models `features.ts`.
  - Every loop is a method, with the loop invariants that tie it to a specification function over sequences.
  - The `Float32Array`s the code allocates and fills (`normalized`, `fft`, `real`, `imag`, `spectrum`) are `array<real>`s.
  - The scan of `calculateTimeFeatures` reads its input as a `seq<real>`.
  - The properties are lemmas about the specification functions.
- `Comparison.dfy` models `comparison.ts` in the same style.
  - `compareValues` and the duration penalty are pure expressions and stay functions.
  - `compareWaveforms` (over `seq<real>` inputs) and the blend loop of `compareFeatures` are methods.

What the code does, where the comments or names in it suggest otherwise:

- **No Fourier transform.** Lines 57-67 of `features.ts` are headed "Perform FFT" and "Calculate magnitude spectrum". They copy the windowed buffer into `real`, never write `imag`, and take `sqrt(re*re + im*im)`. So every bin is the absolute value of a windowed sample. `MagnitudeSpectrum` states and proves exactly that, and no transform is modelled.
- **No guard on silent or empty input.** `calculateTimeFeatures` divides by the length and `normalizeWaveform` divides by the peak. A silent or empty signal therefore gives NaN. `CalculateTimeFeatures` requires a non-zero peak.
- **No guard on empty waveforms or zero durations.** The waveform mean, the zero-crossing rate and the duration penalty divide without guards too. The model requires non-empty waveforms and non-zero durations (`Comparable`).
- **The score is not confined to [0, 1].**
  - The waveform term `1 - |a - b|` is -1 for opposite normalised samples (`OppositeWaveforms`).
  - For records in the range extraction guarantees (`InExtractedRange`), the score lies in [-0.3, 1], and it is at least 0 when the waveform similarity is (`ScoreBounds`).
  - `ScoreCanBeNegative` exhibits two such records that score -0.05.

## Model

| member | source | states |
|---|---|---|
| JsMath.Abs | src/utils/audio/features.ts:23 | Math.abs: the result is non-negative and is x or -x |
| JsMath.Max | src/utils/audio/comparison.ts:58 | Math.max of two: an upper bound of both, equal to one of them |
| JsMath.Min | src/utils/audio/comparison.ts:36 | Math.min of two: a lower bound of both, equal to one of them |
| JsMath.SqrtOfSquare | src/utils/audio/features.ts:66 | for any sqrt obeying IsSqrt, sqrt(x * x) is abs(x) |
| Features.ZeroCrossingCount | src/utils/audio/features.ts:18-31 | the counter the scan leaves is at most the number of samples |
| Features.Previous | src/utils/audio/features.ts:19-31 | the value a sample is compared with: the sample before it, 0 before the first (prevSample's start value) |
| Features.Crosses | src/utils/audio/features.ts:27-28 | the crossing test: the previous value is negative and the sample is not, or the other way round |
| Features.CrossingIndices | src/utils/audio/features.ts:27-31 | an independent definition: the set of positions whose sign class differs from the previous value's |
| Features.ZeroCrossingsAreSignChanges | src/utils/audio/features.ts:19-31 | the counter equals the number of positions whose sign class (negative or not) differs from the previous sample's, the sample before the first being 0 |
| Features.AlternatingCrossings | src/utils/audio/features.ts:27-31 | the alternating signal 1, -1, 1, ... of n > 0 samples has n - 1 crossings |
| Features.ThousandAlternatingSamples | src/utils/audio/features.ts:27-31 | 1000 alternating samples have 999 crossings |
| Features.Peak | src/utils/audio/features.ts:20-24 | the running maximum is 0 for no samples, non-negative, bounds every abs(sample), and is attained by some sample when there is one |
| Features.SumOfSquares | src/utils/audio/features.ts:17-25 | the accumulated energy sum is non-negative |
| Features.ScanStep | src/utils/audio/features.ts:22-31 | one more sample adds its square to the sum, adds 1 to the counter exactly when it crosses, and raises the peak to max(peak, abs(sample)) |
| Features.ScanSamples | src/utils/audio/features.ts:17-32 | the one-pass loop yields exactly the sum of squares, the crossing count and the peak of the whole signal |
| Features.ConstantAmplitudeEnergy | src/utils/audio/features.ts:35 | a signal whose samples all have absolute value a has energy sqrt(sum / length) equal to a |
| Features.Normalized | src/utils/audio/features.ts:109-114 | the normalised copy has the length of the input |
| Features.NormalizedScalesBack | src/utils/audio/features.ts:109-114 | every normalised entry times the divisor gives back the sample |
| Features.NormalizedByPeak | src/utils/audio/features.ts:109-114 | normalised by its own non-zero peak, every entry lies in [-1, 1] |
| Features.NormalizedPeakIsOne | src/utils/audio/features.ts:109-114 | every sample at the peak normalises to exactly 1 or -1, and one such entry exists |
| Features.InUnitRange | src/utils/audio/features.ts:109-114 | every value lies in [-1, 1] |
| Features.NormalizeWaveform | src/utils/audio/features.ts:109-115 | a freshly allocated buffer of the input's length whose entry i is data[i] / maxAmplitude |
| Features.CalculateTimeFeatures | src/utils/audio/features.ts:16-40 | energy is non-negative with energy squared equal to sum of squares over length; counter and peak are those of the signal; the waveform is the signal over its peak, in [-1, 1] |
| Features.AnalysisBuffer | src/utils/audio/features.ts:43-44 | the analysis buffer has exactly 2048 entries |
| Features.AnalysisBufferLayout | src/utils/audio/features.ts:43-50 | the buffer holds the first min(2048, length) samples and zeros after them |
| Features.CopyToAnalysisBuffer | src/utils/audio/features.ts:43-50 | the copy loop produces a fresh 2048-entry array equal to the analysis buffer |
| Features.ApplyWindow | src/utils/audio/features.ts:52-55 | every entry is multiplied in place by its window coefficient and by nothing else |
| Features.Windowed | src/utils/audio/features.ts:53-55 | the buffer multiplied entry by entry by the window coefficients, of the same length |
| Features.Magnitudes | src/utils/audio/features.ts:64-67 | there are half as many bins as buffer entries and every bin is non-negative |
| Features.Spectrum | src/utils/audio/features.ts:43-67 | the spectrum has 1024 non-negative bins |
| Features.MagnitudeSpectrum | src/utils/audio/features.ts:57-67 | in a freshly allocated 1024-bin array, with imag never written, bin i is exactly abs(buffer[i]) |
| Features.FrequencyMonotone | src/utils/audio/features.ts:84 | bin frequencies i * sampleRate / fftSize are non-negative and grow with i for a non-negative sample rate |
| Features.Frequency | src/utils/audio/features.ts:84 | the frequency of bin i: i * sampleRate / fftSize |
| Features.MagnitudeSum | src/utils/audio/features.ts:86 | the sum of all bins |
| Features.WeightedSum | src/utils/audio/features.ts:84-85 | the sum of every bin times its frequency |
| Features.SpectralCentroid | src/utils/audio/features.ts:89 | 0 when the bins sum to 0, otherwise the weighted sum over the sum |
| Features.WeightedSumBounds | src/utils/audio/features.ts:80-87 | for a non-negative spectrum the weighted sum lies between 0 and the top frequency times the plain sum |
| Features.SpectralCentroidBounds | src/utils/audio/features.ts:83-89 | for a non-negative spectrum the centroid lies between 0 and (length - 1) * sampleRate / fftSize |
| Features.CalculateSpectralCentroid | src/utils/audio/features.ts:75-90 | the loop returns the guarded weighted mean (0 for a zero sum), within the bounds above for a non-negative spectrum |
| Features.ShiftedSum | src/utils/audio/features.ts:97-100 | for a non-negative spectrum the sum of the shifted bins is at least length * 1e-6, so the flatness never divides by 0 |
| Features.LogSum | src/utils/audio/features.ts:98-99 | the sum of the logarithms of the bins shifted by 1e-6 |
| Features.SpectralFlatness | src/utils/audio/features.ts:103-106 | exp of the mean log over the mean of the shifted bins |
| Features.SpectralFlatnessPositive | src/utils/audio/features.ts:92-107 | for a non-empty non-negative spectrum the shifted sum is non-zero and the flatness is positive |
| Features.InExtractedRange | src/utils/audio/features.ts:9-13 | what extraction guarantees of a record: a non-empty waveform in [-1, 1], non-negative energy and centroid, positive flatness and duration |
| Features.ConstantSums | src/utils/audio/features.ts:97-101 | n equal bins c give a log sum of n * log(c + 1e-6) and a shifted sum of n * (c + 1e-6) |
| Features.FlatSpectrumFlatness | src/utils/audio/features.ts:92-107 | a perfectly flat spectrum has flatness exactly 1 |
| Features.CalculateSpectralFlatness | src/utils/audio/features.ts:92-107 | the loop returns exp(mean log) over mean of the shifted bins |
| Features.CalculateFrequencyFeatures | src/utils/audio/features.ts:42-73 | centroid and flatness are those of the spectrum of the windowed analysis buffer; the centroid lies between 0 and the frequency of bin 1023 for a non-negative sample rate; the flatness is positive |
| Features.ExtractFromChannelData | src/utils/audio/features.ts:9-13 | the record carries the time features, the frequency features and the given duration; for a positive duration and a non-negative sample rate it is InExtractedRange |
| Comparison.Entries | src/utils/audio/comparison.ts:12-24 | the blend loop visits exactly five values |
| Comparison.WeightsSumToOne | src/utils/audio/comparison.ts:3-9 | the five WEIGHTS are positive and sum to 1 |
| Comparison.Blend | src/utils/audio/comparison.ts:23-26 | every similarity times its weight, summed |
| Comparison.CompareValues | src/utils/audio/comparison.ts:57-61 | the result lies in [-1, 1], is 1 exactly when the values are equal (so 1 for two zeros), and is at least 0 for non-negative values |
| Comparison.CompareValuesSymmetric | src/utils/audio/comparison.ts:57-61 | compareValues does not depend on the order of its arguments |
| Comparison.DurationPenalty | src/utils/audio/comparison.ts:29-30 | the penalty is non-negative and is 1 exactly for equal durations; for non-negative durations it is at most 1, equals min / max, and is positive exactly when both are |
| Comparison.DurationPenaltySymmetric | src/utils/audio/comparison.ts:29-30 | the penalty does not depend on the order of the durations |
| Comparison.DurationPenaltyHalf | src/utils/audio/comparison.ts:29-30 | durations 2 and 1 give a penalty of 0.5 |
| Comparison.RelativeDifference | src/utils/audio/comparison.ts:29-30 | for non-negative durations the relative difference is at most 1, and 1 minus it, times the longer duration, is the shorter |
| Comparison.TargetLength | src/utils/audio/comparison.ts:36 | the target length is the shorter of the two lengths |
| Comparison.SampleIndex | src/utils/audio/comparison.ts:44-45 | the index read at step i: floor(i * (length / targetLength)) |
| Comparison.SampleIndexInBounds | src/utils/audio/comparison.ts:36-47 | every index floor(i * length / target) read for i < target lies in [0, length), so the guard always holds |
| Comparison.SampleIndexOfShorter | src/utils/audio/comparison.ts:36-45 | for the shorter waveform the step is 1 and step i reads index i |
| Comparison.SampleIndexMonotone | src/utils/audio/comparison.ts:43-45 | later steps never read earlier indices |
| Comparison.PairSimilarity | src/utils/audio/comparison.ts:48-49 | 1 - abs(difference) of the two samples read at step i |
| Comparison.SimilaritySum | src/utils/audio/comparison.ts:43-52 | the sum of the first k pair similarities |
| Comparison.SimilaritySumStep | src/utils/audio/comparison.ts:43-51 | each step reads indices inside both waveforms and adds its pair similarity |
| Comparison.WaveformSimilarity | src/utils/audio/comparison.ts:54 | the sum over all target steps divided by the number of steps |
| Comparison.SimilaritySumSelf | src/utils/audio/comparison.ts:43-51 | a waveform against itself accumulates exactly 1 per step |
| Comparison.WaveformSelfSimilarity | src/utils/audio/comparison.ts:35-55 | compareWaveforms(w, w) is 1 |
| Comparison.SimilaritySumSymmetric | src/utils/audio/comparison.ts:43-51 | the accumulated similarity does not depend on the order of the waveforms |
| Comparison.WaveformSimilaritySymmetric | src/utils/audio/comparison.ts:35-55 | compareWaveforms(a, b) equals compareWaveforms(b, a) |
| Comparison.SimilaritySumBounds | src/utils/audio/comparison.ts:43-51 | after k steps the sum is at most k, and at least -k for waveforms in [-1, 1] |
| Comparison.WaveformSimilarityBounds | src/utils/audio/comparison.ts:35-55 | the waveform similarity is at most 1, and at least -1 for waveforms in [-1, 1] |
| Comparison.OppositeWaveforms | src/utils/audio/comparison.ts:35-55 | [1] against [-1] scores -1, so the waveform term can be negative |
| Comparison.CompareWaveforms | src/utils/audio/comparison.ts:35-55 | the loop over all target steps returns the mean pair similarity |
| Comparison.SimilaritiesOf | src/utils/audio/comparison.ts:12-21 | the five similarities; zero crossings are compared as crossings per second |
| Comparison.Score | src/utils/audio/comparison.ts:28-32 | the blend times the duration penalty |
| Comparison.BlendConvex | src/utils/audio/comparison.ts:23-26 | the blend of values in [lo, hi] lies in [lo, hi] |
| Comparison.BlendLoopIsBlend | src/utils/audio/comparison.ts:23-26 | the weighted sum over the five entries equals the blend formula |
| Comparison.SimilaritiesSymmetric | src/utils/audio/comparison.ts:12-21 | each of the five similarities is symmetric in the two records |
| Comparison.ScoreSelf | src/utils/audio/comparison.ts:11-33 | a record with a non-empty waveform and non-zero duration scores exactly 1 against itself |
| Comparison.ScoreSymmetric | src/utils/audio/comparison.ts:11-33 | compareFeatures(a, b) equals compareFeatures(b, a) |
| Comparison.ScoreBounds | src/utils/audio/comparison.ts:11-33 | two records InExtractedRange (as ExtractFromChannelData ensures) score in [-0.3, 1], and at least 0 when the waveform similarity is |
| Comparison.CompareValuesExamples | src/utils/audio/comparison.ts:57-61 | compareValues(0, 1) is 0 and compareValues(1, 0.5) is 0.5 |
| Comparison.NegativeExampleSimilarities | src/utils/audio/comparison.ts:12-21 | the five similarities of the two records of ScoreCanBeNegative |
| Comparison.ScoreCanBeNegative | src/utils/audio/comparison.ts:11-33 | two records InExtractedRange, with opposite one-sample waveforms, score -0.05 |
| Comparison.CompareFeatures | src/utils/audio/comparison.ts:11-33 | the method returns the blend of the five similarities times the duration penalty |

## Left out

- `extractFeatures` (src/utils/audio/features.ts:3-8) is browser I/O: `AudioContext`, `Blob.arrayBuffer` and `decodeAudioData`. The decoded samples, the sample rate and the duration are parameters of `ExtractFromChannelData`.
- The Hann coefficients (src/utils/audio/features.ts:54) need `Math.cos`. The window is a 2048-entry sequence parameter, and nothing is assumed about its values.
- `Math.sqrt`, `Math.log` and `Math.exp` are function parameters constrained only by `IsSqrt` and `IsLnExp`.
- IEEE-754 and Float32 rounding, NaN and Infinity are not modelled. Every value is an exact real, so the equalities hold over the reals, not bit for bit.
- CalculateTimeFeatures: requires a non-zero peak (hence a non-empty signal), because the code divides by the length and by the peak unguarded and yields NaN otherwise.
- NormalizeWaveform: requires a non-zero divisor, for the same reason.
- CompareWaveforms: requires both waveforms to be non-empty, because an empty one makes the final division 0 / 0.
- CompareFeatures: requires `Comparable`. Without non-empty waveforms and non-zero durations the code yields NaN.
- DurationPenalty: requires a non-zero larger duration, because the code divides by it.
- CalculateSpectralFlatness: requires a non-empty spectrum with a non-zero shifted sum. `CalculateFrequencyFeatures` proves that its 1024-bin spectrum meets this.
- FlatSpectrumFlatness: only the flat case (and positivity, SpectralFlatnessPositive) is proved. The general bound flatness <= 1 (the inequality of arithmetic and geometric means) needs more of `log` and `exp` than `IsLnExp` provides.
- CalculateFrequencyFeatures: the centroid bounds are stated for a non-negative sample rate only; a decoder never reports a negative one.
