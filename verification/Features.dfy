/** Feature extraction from mono PCM samples (src/utils/audio/features.ts),
    over exact reals: the single time-domain scan, the normalised copy of the
    waveform, the analysis buffer, the magnitude loop (which performs no
    transform), the spectral centroid and the spectral flatness. */
module Features {
  import opened JsMath

  /** Number of entries of the analysis buffer (`fftSize`). */
  const FFT_SIZE: nat := 2048

  /** Offset added to every bin before the flatness logarithm. */
  const EPSILON: real := 0.000001

  /** The record an extraction produces; `duration` comes from the decoder. */
  datatype AudioFeatures = AudioFeatures(
    waveform: seq<real>,
    energy: real,
    zeroCrossings: nat,
    maxAmplitude: real,
    spectralCentroid: real,
    spectralFlatness: real,
    duration: real)

  // ---------------------------------------------------------------------
  // Time domain: specification
  // ---------------------------------------------------------------------

  /** The value the scan compares s[i] with: the sample before it, and 0
      before the first sample. */
  function Previous(s: seq<real>, i: nat): real
    requires i < |s|
  {
    if i == 0 then 0.0 else s[i - 1]
  }

  /** The crossing test of the scan. */
  predicate Crosses(prev: real, x: real)
  {
    (prev < 0.0 && x >= 0.0) || (prev >= 0.0 && x < 0.0)
  }

  /** What the scan's counter holds after visiting all of s. */
  function ZeroCrossingCount(s: seq<real>): (n: nat)
    ensures n <= |s|
  {
    if s == [] then 0
    else
      ZeroCrossingCount(s[..|s| - 1])
      + (if Crosses(Previous(s, |s| - 1), s[|s| - 1]) then 1 else 0)
  }

  /** The positions at which the sign class (negative, or not) of a sample
      differs from that of the value before it. */
  function CrossingIndices(s: seq<real>): set<nat>
  {
    set i: nat | i < |s| && (Previous(s, i) < 0.0) != (s[i] < 0.0)
  }

  /** The largest absolute sample, 0 for no samples. */
  function Peak(s: seq<real>): (m: real)
    ensures s == [] ==> m == 0.0
    ensures 0.0 <= m
    ensures forall i :: 0 <= i < |s| ==> Abs(s[i]) <= m
    ensures s != [] ==> exists k :: 0 <= k < |s| && Abs(s[k]) == m
  {
    if s == [] then 0.0
    else
      var m := Max(Peak(s[..|s| - 1]), Abs(s[|s| - 1]));
      assert m == Abs(s[|s| - 1]) || exists k :: 0 <= k < |s| - 1 && Abs(s[k]) == m;
      m
  }

  /** The sum of the squares of all samples. */
  function SumOfSquares(s: seq<real>): (e: real)
    ensures 0.0 <= e
  {
    if s == [] then 0.0
    else SumOfSquares(s[..|s| - 1]) + s[|s| - 1] * s[|s| - 1]
  }

  /** Every sample divided by `maxAmplitude`. */
  function Normalized(data: seq<real>, maxAmplitude: real): (w: seq<real>)
    requires maxAmplitude != 0.0
    ensures |w| == |data|
  {
    seq(|data|, i requires 0 <= i < |data| => data[i] / maxAmplitude)
  }

  /** Every value lies in [-1, 1]. */
  predicate InUnitRange(w: seq<real>)
  {
    forall i :: 0 <= i < |w| ==> -1.0 <= w[i] <= 1.0
  }

  /** The alternating signal 1, -1, 1, -1, ... of n samples. */
  function Alternating(n: nat): (s: seq<real>)
    ensures |s| == n
  {
    seq(n, i => if i % 2 == 0 then 1.0 else -1.0)
  }

  // ---------------------------------------------------------------------
  // Time domain: properties
  // ---------------------------------------------------------------------

  /** The counter counts exactly the positions where the sign class changes;
      a negative first sample counts, since the value before it is 0. */
  lemma {:induction false} ZeroCrossingsAreSignChanges(s: seq<real>)
    ensures ZeroCrossingCount(s) == |CrossingIndices(s)|
  {
    if s != [] {
      var n := |s| - 1;
      ZeroCrossingsAreSignChanges(s[..n]);
      CrossingIndicesStep(s);
      assert n !in CrossingIndices(s[..n]);
    }
  }

  /** The crossing positions of s are those of s without its last sample,
      plus the last position when the last sample crosses. */
  lemma CrossingIndicesStep(s: seq<real>)
    requires s != []
    ensures var n := |s| - 1;
            CrossingIndices(s)
            == CrossingIndices(s[..n]) + (if Crosses(Previous(s, n), s[n]) then {n} else {})
  {
    var n := |s| - 1;
    var p := s[..n];
    forall i | 0 <= i < n
      ensures Previous(p, i) == Previous(s, i) && p[i] == s[i]
    {
    }
  }

  /** The alternating signal of n > 0 samples crosses n - 1 times. */
  lemma {:induction false} AlternatingCrossings(n: nat)
    requires 0 < n
    ensures ZeroCrossingCount(Alternating(n)) == n - 1
  {
    var s := Alternating(n);
    if n == 1 {
      assert s[..0] == [];
    } else {
      assert s[..n - 1] == Alternating(n - 1);
      AlternatingCrossings(n - 1);
      assert (n - 1) % 2 != (n - 2) % 2;
      assert Crosses(Previous(s, n - 1), s[n - 1]);
    }
  }

  /** 1, -1, 1, ... of length 1000 has 999 zero crossings. */
  lemma ThousandAlternatingSamples()
    ensures ZeroCrossingCount(Alternating(1000)) == 999
  {
    AlternatingCrossings(1000);
  }

  /** A signal whose every sample has absolute value a has a sum of squares
      of n * a * a. */
  lemma {:induction false} ConstantAmplitudeSumOfSquares(s: seq<real>, a: real)
    requires forall i :: 0 <= i < |s| ==> Abs(s[i]) == a
    ensures SumOfSquares(s) == |s| as real * (a * a)
  {
    if s != [] {
      var n := |s| - 1;
      ConstantAmplitudeSumOfSquares(s[..n], a);
      assert s[n] * s[n] == a * a;
    }
  }

  /** n copies of v have mean v. */
  lemma MeanOfRepeated(n: nat, v: real)
    requires 0 < n
    ensures (n as real * v) / n as real == v
  {
  }

  /** The energy (root mean square) of a constant-amplitude signal is its
      amplitude. */
  lemma ConstantAmplitudeEnergy(sqrt: real -> real, s: seq<real>, a: real)
    requires IsSqrt(sqrt)
    requires s != [] && 0.0 <= a
    requires forall i :: 0 <= i < |s| ==> Abs(s[i]) == a
    ensures sqrt(SumOfSquares(s) / |s| as real) == a
  {
    hide SumOfSquares;
    ConstantAmplitudeSumOfSquares(s, a);
    var n, square := |s| as real, a * a;
    MeanOfRepeated(|s|, square);
    var total := SumOfSquares(s);
    assert total == n * square;
    var mean := total / n;
    assert mean == square;
    SqrtOfSquare(sqrt, a);
    assert sqrt(a * a) == a;
    assert sqrt(mean) == a;
  }

  /** |x / m| is |x| / m for positive m. */
  lemma AbsQuotient(x: real, m: real)
    requires 0.0 < m
    ensures Abs(x / m) == Abs(x) / m
  {
    if x < 0.0 {
      assert x / m < 0.0;
      assert -(x / m) == (-x) / m;
    } else {
      assert 0.0 <= x / m;
    }
  }

  /** x / m lies in [-1, 1] when |x| <= m, and is 1 or -1 when |x| == m. */
  lemma SampleOverPeak(x: real, m: real)
    requires 0.0 < m && Abs(x) <= m
    ensures Abs(x / m) <= 1.0
    ensures Abs(x) == m ==> Abs(x / m) == 1.0
  {
    AbsQuotient(x, m);
    assert m / m == 1.0;
    if Abs(x) < m {
      assert m / m - Abs(x) / m == (m - Abs(x)) / m;
    }
  }

  /** Normalising by a non-zero m is undone by multiplying by m. */
  lemma NormalizedScalesBack(data: seq<real>, m: real)
    requires m != 0.0
    ensures forall i :: 0 <= i < |data| ==> Normalized(data, m)[i] * m == data[i]
  {
  }

  /** Normalised by its peak, every sample lies in [-1, 1]. */
  lemma NormalizedByPeak(data: seq<real>)
    requires Peak(data) != 0.0
    ensures InUnitRange(Normalized(data, Peak(data)))
  {
    var m := Peak(data);
    forall i | 0 <= i < |data|
      ensures Abs(Normalized(data, m)[i]) <= 1.0
    {
      SampleOverPeak(data[i], m);
    }
  }

  /** Normalised by its peak, every sample at the peak becomes exactly 1 or
      -1, and there is at least one such sample. */
  lemma NormalizedPeakIsOne(data: seq<real>)
    requires Peak(data) != 0.0
    ensures forall k :: 0 <= k < |data| && Abs(data[k]) == Peak(data) ==>
              Abs(Normalized(data, Peak(data))[k]) == 1.0
    ensures exists k :: 0 <= k < |data| && Abs(Normalized(data, Peak(data))[k]) == 1.0
  {
    var m := Peak(data);
    forall k | 0 <= k < |data| && Abs(data[k]) == m
      ensures Abs(Normalized(data, m)[k]) == 1.0
    {
      SampleOverPeak(data[k], m);
    }
    var k :| 0 <= k < |data| && Abs(data[k]) == m;
    assert Abs(Normalized(data, m)[k]) == 1.0;
  }

  // ---------------------------------------------------------------------
  // Time domain: the code
  // ---------------------------------------------------------------------

  /** One more sample extends the three scan quantities as the loop does. */
  lemma ScanStep(s: seq<real>, i: nat)
    requires i < |s|
    ensures SumOfSquares(s[..i + 1]) == SumOfSquares(s[..i]) + s[i] * s[i]
    ensures ZeroCrossingCount(s[..i + 1])
            == ZeroCrossingCount(s[..i]) + (if Crosses(Previous(s, i), s[i]) then 1 else 0)
    ensures Peak(s[..i + 1]) == Max(Peak(s[..i]), Abs(s[i]))
  {
    var p := s[..i + 1];
    assert p[..i] == s[..i];
    assert Previous(p, i) == Previous(s, i);
  }

  /** The loop of `calculateTimeFeatures`: one pass accumulating the sum of
      squares, the zero-crossing counter and the peak absolute amplitude. */
  method ScanSamples(channelData: seq<real>)
    returns (energySum: real, zeroCrossings: nat, maxAmplitude: real)
    ensures energySum == SumOfSquares(channelData)
    ensures zeroCrossings == ZeroCrossingCount(channelData)
    ensures maxAmplitude == Peak(channelData)
  {
    energySum, zeroCrossings, maxAmplitude := 0.0, 0, 0.0;
    var prevSample := 0.0;
    for i := 0 to |channelData|
      invariant energySum == SumOfSquares(channelData[..i])
      invariant zeroCrossings == ZeroCrossingCount(channelData[..i])
      invariant maxAmplitude == Peak(channelData[..i])
      invariant i < |channelData| ==> prevSample == Previous(channelData, i)
    {
      ScanStep(channelData, i);
      var amplitude := Abs(channelData[i]);
      maxAmplitude := Max(maxAmplitude, amplitude);
      energySum := energySum + channelData[i] * channelData[i];
      if (prevSample < 0.0 && channelData[i] >= 0.0) || (prevSample >= 0.0 && channelData[i] < 0.0) {
        zeroCrossings := zeroCrossings + 1;
      }
      prevSample := channelData[i];
    }
    assert channelData[..|channelData|] == channelData;
  }

  /** `normalizeWaveform`: a new buffer of the same length holding every
      sample divided by `maxAmplitude` (the division is unguarded). */
  method NormalizeWaveform(data: seq<real>, maxAmplitude: real) returns (normalized: array<real>)
    requires maxAmplitude != 0.0
    ensures fresh(normalized)
    ensures normalized.Length == |data|
    ensures normalized[..] == Normalized(data, maxAmplitude)
  {
    normalized := new real[|data|](_ => 0.0);
    for i := 0 to |data|
      invariant forall j :: 0 <= j < i ==> normalized[j] == data[j] / maxAmplitude
    {
      normalized[i] := data[i] / maxAmplitude;
    }
  }

  /** `calculateTimeFeatures`: the scan, the energy as the square root of the
      mean square, and the waveform normalised by the peak. The code divides
      by the length and by the peak unguarded, so the signal must not be
      empty or silent. */
  method CalculateTimeFeatures(channelData: seq<real>, sqrt: real -> real)
    returns (energy: real, zeroCrossings: nat, maxAmplitude: real, waveform: seq<real>)
    requires IsSqrt(sqrt)
    requires Peak(channelData) != 0.0
    ensures 0.0 <= energy
    ensures energy * energy == SumOfSquares(channelData) / |channelData| as real
    ensures zeroCrossings == ZeroCrossingCount(channelData)
    ensures maxAmplitude == Peak(channelData)
    ensures waveform == Normalized(channelData, maxAmplitude)
    ensures InUnitRange(waveform)
  {
    hide IsSqrt, Peak, SumOfSquares, ZeroCrossingCount, Normalized, InUnitRange;
    var energySum;
    energySum, zeroCrossings, maxAmplitude := ScanSamples(channelData);
    var mean := energySum / |channelData| as real;
    SqrtLaw(sqrt, mean);
    energy := sqrt(mean);
    var normalized := NormalizeWaveform(channelData, maxAmplitude);
    waveform := normalized[..];
    NormalizedByPeak(channelData);
  }

  // ---------------------------------------------------------------------
  // Frequency domain: specification
  // ---------------------------------------------------------------------

  /** The analysis buffer: the first samples, zero-padded to FFT_SIZE. */
  function AnalysisBuffer(s: seq<real>): (b: seq<real>)
    ensures |b| == FFT_SIZE
  {
    seq(FFT_SIZE, i requires 0 <= i < FFT_SIZE => if i < |s| then s[i] else 0.0)
  }

  /** The buffer multiplied entry by entry by the window coefficients. */
  function Windowed(buffer: seq<real>, window: seq<real>): (w: seq<real>)
    requires |buffer| == |window|
    ensures |w| == |buffer|
  {
    seq(|buffer|, i requires 0 <= i < |buffer| => buffer[i] * window[i])
  }

  /** The absolute values of the first half of the buffer. */
  function Magnitudes(buffer: seq<real>): (m: seq<real>)
    ensures |m| == |buffer| / 2
    ensures forall i :: 0 <= i < |m| ==> 0.0 <= m[i]
  {
    seq(|buffer| / 2, i requires 0 <= i < |buffer| / 2 => Abs(buffer[i]))
  }

  /** The spectrum the extractor analyses. */
  function Spectrum(s: seq<real>, window: seq<real>): (m: seq<real>)
    requires |window| == FFT_SIZE
    ensures |m| == FFT_SIZE / 2
    ensures forall i :: 0 <= i < |m| ==> 0.0 <= m[i]
  {
    Magnitudes(Windowed(AnalysisBuffer(s), window))
  }

  /** The frequency in Hz of bin i. */
  function Frequency(i: nat, sampleRate: real, fftSize: nat): real
    requires 0 < fftSize
  {
    (i as real * sampleRate) / fftSize as real
  }

  /** The sum of all bins. */
  function MagnitudeSum(s: seq<real>): real
  {
    if s == [] then 0.0 else MagnitudeSum(s[..|s| - 1]) + s[|s| - 1]
  }

  /** The sum of every bin weighted by its frequency. */
  function WeightedSum(s: seq<real>, sampleRate: real, fftSize: nat): real
    requires 0 < fftSize
  {
    if s == [] then 0.0
    else WeightedSum(s[..|s| - 1], sampleRate, fftSize) + Frequency(|s| - 1, sampleRate, fftSize) * s[|s| - 1]
  }

  /** The guarded weighted mean frequency. */
  function SpectralCentroid(s: seq<real>, sampleRate: real, fftSize: nat): real
    requires 0 < fftSize
  {
    if MagnitudeSum(s) == 0.0 then 0.0
    else WeightedSum(s, sampleRate, fftSize) / MagnitudeSum(s)
  }

  /** The sum of the logarithms of the shifted bins. */
  function LogSum(s: seq<real>, ln: real -> real): real
  {
    if s == [] then 0.0 else LogSum(s[..|s| - 1], ln) + ln(s[|s| - 1] + EPSILON)
  }

  /** The sum of the shifted bins; at least n * EPSILON for a non-negative spectrum. */
  function ShiftedSum(s: seq<real>): (r: real)
    ensures (forall i :: 0 <= i < |s| ==> 0.0 <= s[i]) ==> |s| as real * EPSILON <= r
  {
    if s == [] then 0.0 else ShiftedSum(s[..|s| - 1]) + (s[|s| - 1] + EPSILON)
  }

  /** Geometric mean over arithmetic mean of the shifted bins. */
  function SpectralFlatness(s: seq<real>, ln: real -> real, exp: real -> real): real
    requires s != [] && ShiftedSum(s) != 0.0
  {
    var n := |s| as real;
    exp(LogSum(s, ln) / n) / (ShiftedSum(s) / n)
  }

  // ---------------------------------------------------------------------
  // Frequency domain: properties
  // ---------------------------------------------------------------------

  /** The analysis buffer starts with the first min(FFT_SIZE, |s|) samples
      and is zero after them. */
  lemma AnalysisBufferLayout(s: seq<real>)
    ensures var k := if |s| < FFT_SIZE then |s| else FFT_SIZE;
            AnalysisBuffer(s)[..k] == s[..k]
            && forall i :: k <= i < FFT_SIZE ==> AnalysisBuffer(s)[i] == 0.0
  {
  }

  /** Frequencies grow with the bin index when the sample rate is not negative. */
  lemma FrequencyMonotone(i: nat, j: nat, sampleRate: real, fftSize: nat)
    requires i <= j && 0.0 <= sampleRate && 0 < fftSize
    ensures 0.0 <= Frequency(i, sampleRate, fftSize) <= Frequency(j, sampleRate, fftSize)
  {
    MulMonotone(0.0, i as real, sampleRate);
    MulMonotone(i as real, j as real, sampleRate);
  }

  /** For a non-negative spectrum the weighted sum lies between 0 and the
      highest frequency times the plain sum. */
  lemma {:induction false} WeightedSumBounds(s: seq<real>, sampleRate: real, fftSize: nat)
    requires s != [] && 0.0 <= sampleRate && 0 < fftSize
    requires forall i :: 0 <= i < |s| ==> 0.0 <= s[i]
    ensures 0.0 <= MagnitudeSum(s)
    ensures 0.0 <= WeightedSum(s, sampleRate, fftSize)
    ensures WeightedSum(s, sampleRate, fftSize)
            <= Frequency(|s| - 1, sampleRate, fftSize) * MagnitudeSum(s)
  {
    var n := |s| - 1;
    var p := s[..n];
    var top := Frequency(n, sampleRate, fftSize);
    FrequencyMonotone(0, n, sampleRate, fftSize);
    MulMonotone(0.0, top, s[n]);
    if p == [] {
      assert MagnitudeSum(s) == s[n];
      assert WeightedSum(s, sampleRate, fftSize) == top * s[n];
    } else {
      WeightedSumBounds(p, sampleRate, fftSize);
      FrequencyMonotone(n - 1, n, sampleRate, fftSize);
      MulMonotone(Frequency(n - 1, sampleRate, fftSize), top, MagnitudeSum(p));
      assert top * MagnitudeSum(s) == top * MagnitudeSum(p) + top * s[n];
    }
  }

  /** For a non-negative spectrum and sample rate the centroid lies between 0
      and the frequency of the last bin; it is 0 when all bins are 0. */
  lemma SpectralCentroidBounds(s: seq<real>, sampleRate: real, fftSize: nat)
    requires s != [] && 0.0 <= sampleRate && 0 < fftSize
    requires forall i :: 0 <= i < |s| ==> 0.0 <= s[i]
    ensures 0.0 <= SpectralCentroid(s, sampleRate, fftSize) <= Frequency(|s| - 1, sampleRate, fftSize)
  {
    WeightedSumBounds(s, sampleRate, fftSize);
    FrequencyMonotone(0, |s| - 1, sampleRate, fftSize);
    var total := MagnitudeSum(s);
    if total != 0.0 {
      QuotientBound(WeightedSum(s, sampleRate, fftSize), total, Frequency(|s| - 1, sampleRate, fftSize));
    }
  }

  /** Summing n copies of the same term. */
  lemma {:induction false} ConstantSums(s: seq<real>, c: real, ln: real -> real)
    requires forall i :: 0 <= i < |s| ==> s[i] == c
    ensures LogSum(s, ln) == |s| as real * ln(c + EPSILON)
    ensures ShiftedSum(s) == |s| as real * (c + EPSILON)
  {
    if s != [] {
      ConstantSums(s[..|s| - 1], c, ln);
    }
  }

  /** A perfectly flat spectrum has flatness exactly 1. */
  lemma FlatSpectrumFlatness(s: seq<real>, c: real, ln: real -> real, exp: real -> real)
    requires IsLnExp(ln, exp)
    requires s != [] && 0.0 <= c
    requires forall i :: 0 <= i < |s| ==> s[i] == c
    ensures SpectralFlatness(s, ln, exp) == 1.0
  {
    ConstantSums(s, c, ln);
    var n := |s| as real;
    var v := c + EPSILON;
    assert 0.0 < v;
    assert LogSum(s, ln) / n == ln(v);
    assert ShiftedSum(s) / n == v;
    assert exp(ln(v)) == v;
    assert v / v == 1.0;
  }

  /** For a non-negative spectrum the flatness is positive: a positive
      geometric mean over a positive arithmetic mean. */
  lemma SpectralFlatnessPositive(s: seq<real>, ln: real -> real, exp: real -> real)
    requires IsLnExp(ln, exp)
    requires s != []
    requires forall i :: 0 <= i < |s| ==> 0.0 <= s[i]
    ensures ShiftedSum(s) != 0.0
    ensures 0.0 < SpectralFlatness(s, ln, exp)
  {
    hide IsLnExp, LogSum;
    var n := |s| as real;
    var shifted := ShiftedSum(s);
    assert 0.0 < n * EPSILON <= shifted;
    var meanLog := LogSum(s, ln) / n;
    ExpPositive(ln, exp, meanLog);
    var arithmetic := shifted / n;
    assert 0.0 < arithmetic;
    assert SpectralFlatness(s, ln, exp) == exp(meanLog) / arithmetic;
  }

  /** What extraction guarantees of a record: a non-empty waveform within
      [-1, 1], non-negative energy and centroid, a positive flatness and a
      positive duration. */
  predicate InExtractedRange(f: AudioFeatures)
  {
    0 < |f.waveform| && InUnitRange(f.waveform)
    && 0.0 <= f.energy && 0.0 <= f.spectralCentroid && 0.0 < f.spectralFlatness
    && 0.0 < f.duration
  }

  // ---------------------------------------------------------------------
  // Frequency domain: the code
  // ---------------------------------------------------------------------

  /** Lines 43-50 of `calculateFrequencyFeatures`: a zero-filled buffer of
      FFT_SIZE entries into which the first samples are copied. */
  method CopyToAnalysisBuffer(channelData: seq<real>) returns (fft: array<real>)
    ensures fresh(fft)
    ensures fft.Length == FFT_SIZE
    ensures fft[..] == AnalysisBuffer(channelData)
  {
    fft := new real[FFT_SIZE](_ => 0.0);
    var i := 0;
    while i < FFT_SIZE && i < |channelData|
      invariant 0 <= i <= FFT_SIZE && i <= |channelData|
      invariant forall j :: 0 <= j < FFT_SIZE ==> fft[j] == (if j < i then channelData[j] else 0.0)
    {
      fft[i] := channelData[i];
      i := i + 1;
    }
  }

  /** Lines 53-55: every entry multiplied in place by its window coefficient
      (the Hann coefficients are an input of the model). */
  method ApplyWindow(fft: array<real>, window: seq<real>)
    requires fft.Length == |window|
    modifies fft
    ensures fft[..] == Windowed(old(fft[..]), window)
  {
    for i := 0 to fft.Length
      invariant forall j :: 0 <= j < i ==> fft[j] == old(fft[j]) * window[j]
      invariant forall j :: i <= j < fft.Length ==> fft[j] == old(fft[j])
    {
      fft[i] := fft[i] * window[i];
    }
    assert forall j :: 0 <= j < fft.Length ==> fft[..][j] == Windowed(old(fft[..]), window)[j];
  }

  /** Lines 58-67: `real` is a copy of the buffer and `imag` is never
      written, so each of the FFT_SIZE / 2 magnitudes is the absolute value of
      the buffer entry: no transform takes place. */
  method MagnitudeSpectrum(fft: array<real>, sqrt: real -> real) returns (spectrum: array<real>)
    requires IsSqrt(sqrt)
    requires fft.Length == FFT_SIZE
    ensures fresh(spectrum)
    ensures spectrum.Length == FFT_SIZE / 2
    ensures forall i :: 0 <= i < spectrum.Length ==> spectrum[i] == Abs(fft[i])
    ensures spectrum[..] == Magnitudes(fft[..])
  {
    spectrum := new real[FFT_SIZE / 2](_ => 0.0);
    var realPart := new real[FFT_SIZE](_ => 0.0);
    var imagPart := new real[FFT_SIZE](_ => 0.0);
    for i := 0 to FFT_SIZE
      invariant forall j :: 0 <= j < i ==> realPart[j] == fft[j]
      invariant forall j :: 0 <= j < FFT_SIZE ==> imagPart[j] == 0.0
    {
      realPart[i] := fft[i];
    }
    for i := 0 to FFT_SIZE / 2
      invariant forall j :: 0 <= j < FFT_SIZE ==> realPart[j] == fft[j] && imagPart[j] == 0.0
      invariant forall j :: 0 <= j < i ==> spectrum[j] == Abs(fft[j])
    {
      var x, re, im := fft[i], realPart[i], imagPart[i];
      var power := re * re + im * im;
      assert power == x * x;
      SqrtOfSquare(sqrt, x);
      assert sqrt(power) == Abs(x);
      spectrum[i] := sqrt(power);
    }
  }

  /** `calculateSpectralCentroid`: one pass summing the bins and the
      frequency-weighted bins, then the guarded quotient. */
  method CalculateSpectralCentroid(spectrum: array<real>, sampleRate: real, fftSize: nat)
    returns (centroid: real)
    requires 0 < fftSize
    ensures centroid == SpectralCentroid(spectrum[..], sampleRate, fftSize)
    ensures 0 < spectrum.Length && 0.0 <= sampleRate
              && (forall i :: 0 <= i < spectrum.Length ==> 0.0 <= spectrum[i])
            ==> 0.0 <= centroid <= Frequency(spectrum.Length - 1, sampleRate, fftSize)
  {
    var weightedSum := 0.0;
    var sum := 0.0;
    for i := 0 to spectrum.Length
      invariant weightedSum == WeightedSum(spectrum[..i], sampleRate, fftSize)
      invariant sum == MagnitudeSum(spectrum[..i])
    {
      assert spectrum[..i + 1][..i] == spectrum[..i];
      var frequency := (i as real * sampleRate) / fftSize as real;
      weightedSum := weightedSum + frequency * spectrum[i];
      sum := sum + spectrum[i];
    }
    assert spectrum[..spectrum.Length] == spectrum[..];
    centroid := if sum == 0.0 then 0.0 else weightedSum / sum;
    if 0 < spectrum.Length && 0.0 <= sampleRate
       && (forall i :: 0 <= i < spectrum.Length ==> 0.0 <= spectrum[i])
    {
      SpectralCentroidBounds(spectrum[..], sampleRate, fftSize);
    }
  }

  /** `calculateSpectralFlatness`: one pass summing the logarithms and the
      values of the shifted bins, then the two means and their quotient. */
  method CalculateSpectralFlatness(spectrum: array<real>, ln: real -> real, exp: real -> real)
    returns (flatness: real)
    requires 0 < spectrum.Length && ShiftedSum(spectrum[..]) != 0.0
    ensures flatness == SpectralFlatness(spectrum[..], ln, exp)
  {
    var geometricMean := 0.0;
    var arithmeticMean := 0.0;
    for i := 0 to spectrum.Length
      invariant geometricMean == LogSum(spectrum[..i], ln)
      invariant arithmeticMean == ShiftedSum(spectrum[..i])
    {
      assert spectrum[..i + 1][..i] == spectrum[..i];
      var value := spectrum[i] + EPSILON;
      geometricMean := geometricMean + ln(value);
      arithmeticMean := arithmeticMean + value;
    }
    assert spectrum[..spectrum.Length] == spectrum[..];
    geometricMean := exp(geometricMean / spectrum.Length as real);
    arithmeticMean := arithmeticMean / spectrum.Length as real;
    flatness := geometricMean / arithmeticMean;
  }

  /** `calculateFrequencyFeatures`: buffer, window, magnitudes, then the
      centroid and the flatness of the resulting spectrum. */
  method CalculateFrequencyFeatures(
    channelData: seq<real>, sampleRate: real, window: seq<real>,
    sqrt: real -> real, ln: real -> real, exp: real -> real)
    returns (spectralCentroid: real, spectralFlatness: real)
    requires IsSqrt(sqrt) && IsLnExp(ln, exp)
    requires |window| == FFT_SIZE
    ensures spectralCentroid == SpectralCentroid(Spectrum(channelData, window), sampleRate, FFT_SIZE)
    ensures 0.0 <= sampleRate ==>
              0.0 <= spectralCentroid <= Frequency(FFT_SIZE / 2 - 1, sampleRate, FFT_SIZE)
    ensures ShiftedSum(Spectrum(channelData, window)) != 0.0
    ensures spectralFlatness == SpectralFlatness(Spectrum(channelData, window), ln, exp)
    ensures 0.0 < spectralFlatness
  {
    var fft := CopyToAnalysisBuffer(channelData);
    ApplyWindow(fft, window);
    var spectrum := MagnitudeSpectrum(fft, sqrt);
    assert spectrum[..] == Spectrum(channelData, window);
    spectralCentroid := CalculateSpectralCentroid(spectrum, sampleRate, FFT_SIZE);
    SpectralFlatnessPositive(spectrum[..], ln, exp);
    spectralFlatness := CalculateSpectralFlatness(spectrum, ln, exp);
  }

  /** The record assembly of `extractFeatures`, over samples that have
      already been decoded: time features, frequency features, duration. */
  method ExtractFromChannelData(
    channelData: seq<real>, sampleRate: real, duration: real, window: seq<real>,
    sqrt: real -> real, ln: real -> real, exp: real -> real)
    returns (f: AudioFeatures)
    requires IsSqrt(sqrt) && IsLnExp(ln, exp)
    requires |window| == FFT_SIZE
    requires Peak(channelData) != 0.0
    ensures |f.waveform| == |channelData|
    ensures f.waveform == Normalized(channelData, Peak(channelData))
    ensures InUnitRange(f.waveform)
    ensures 0.0 <= f.energy
    ensures f.energy * f.energy == SumOfSquares(channelData) / |channelData| as real
    ensures f.zeroCrossings == ZeroCrossingCount(channelData)
    ensures f.maxAmplitude == Peak(channelData)
    ensures f.spectralCentroid == SpectralCentroid(Spectrum(channelData, window), sampleRate, FFT_SIZE)
    ensures 0.0 <= sampleRate ==> 0.0 <= f.spectralCentroid
    ensures f.spectralFlatness == SpectralFlatness(Spectrum(channelData, window), ln, exp)
    ensures 0.0 < f.spectralFlatness
    ensures f.duration == duration
    ensures 0.0 <= sampleRate && 0.0 < duration ==> InExtractedRange(f)
  {
    // the contracts of the two calls are all the proof needs
    hide IsSqrt, IsLnExp, Peak, SumOfSquares, ZeroCrossingCount, Normalized, InUnitRange,
      Spectrum, SpectralCentroid, SpectralFlatness;
    var energy, zeroCrossings, maxAmplitude, waveform := CalculateTimeFeatures(channelData, sqrt);
    var spectralCentroid, spectralFlatness :=
      CalculateFrequencyFeatures(channelData, sampleRate, window, sqrt, ln, exp);
    f := AudioFeatures(waveform, energy, zeroCrossings, maxAmplitude,
                       spectralCentroid, spectralFlatness, duration);
  }
}
