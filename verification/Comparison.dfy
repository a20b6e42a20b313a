/** Scoring two feature records against each other
    (src/utils/audio/comparison.ts), over exact reals: the relative
    closeness of two numbers, the waveform comparison by floored-index
    subsampling, the fixed five-weight blend and the duration penalty. */
module Comparison {
  import opened JsMath
  import opened Features

  /** The five named similarities, in the order the blend visits them. */
  datatype Similarities = Similarities(
    waveform: real,
    energy: real,
    zeroCrossings: real,
    spectralCentroid: real,
    spectralFlatness: real)

  /** The fixed blend weights. */
  const WEIGHTS: Similarities := Similarities(0.3, 0.15, 0.15, 0.2, 0.2)

  /** The five values in insertion order, the order `Object.entries` lists them. */
  function Entries(s: Similarities): (e: seq<real>)
    ensures |e| == 5
  {
    [s.waveform, s.energy, s.zeroCrossings, s.spectralCentroid, s.spectralFlatness]
  }

  /** The blend as one formula: every similarity times its weight. */
  function Blend(s: Similarities): real
  {
    WEIGHTS.waveform * s.waveform
    + WEIGHTS.energy * s.energy
    + WEIGHTS.zeroCrossings * s.zeroCrossings
    + WEIGHTS.spectralCentroid * s.spectralCentroid
    + WEIGHTS.spectralFlatness * s.spectralFlatness
  }

  /** What the blend loop has accumulated after its first k entries. */
  function WeightedPrefix(values: seq<real>, weights: seq<real>, k: nat): real
    requires k <= |values| && k <= |weights|
  {
    if k == 0 then 0.0
    else WeightedPrefix(values, weights, k - 1) + values[k - 1] * weights[k - 1]
  }

  // ---------------------------------------------------------------------
  // compareValues and the duration penalty
  // ---------------------------------------------------------------------

  /** `compareValues`: 1 minus the distance relative to the larger
      magnitude, and 1 when both are 0. It is at most 1, exactly 1 for equal
      arguments, and in [0, 1] for non-negative arguments. */
  function CompareValues(value1: real, value2: real): (r: real)
    ensures -1.0 <= r <= 1.0
    ensures r == 1.0 <==> value1 == value2
    ensures 0.0 <= value1 && 0.0 <= value2 ==> 0.0 <= r
  {
    var maxValue := Max(Abs(value1), Abs(value2));
    if maxValue == 0.0 then 1.0
    else
      var diff := Abs(value1 - value2);
      QuotientBound(diff, maxValue, 2.0);
      QuotientBound(diff, maxValue, if 0.0 <= value1 && 0.0 <= value2 then 1.0 else 2.0);
      assert diff == 0.0 <==> value1 == value2;
      assert 0.0 <= diff / maxValue;
      assert diff / maxValue == 0.0 ==> diff == diff / maxValue * maxValue == 0.0;
      1.0 - diff / maxValue
  }

  /** `compareValues` does not depend on the order of its arguments. */
  lemma CompareValuesSymmetric(value1: real, value2: real)
    ensures CompareValues(value1, value2) == CompareValues(value2, value1)
  {
  }

  /** The duration penalty: 1 minus the duration difference relative to the
      longer duration, clamped at 0. For durations that are not negative it
      is the shorter over the longer, so it lies in [0, 1], is positive
      exactly when both are, and is 1 exactly when they are equal. */
  function DurationPenalty(duration1: real, duration2: real): (p: real)
    requires Max(duration1, duration2) != 0.0
    ensures 0.0 <= p
    ensures p == 1.0 <==> duration1 == duration2
    ensures 0.0 <= duration1 && 0.0 <= duration2 ==>
              p <= 1.0
              && p * Max(duration1, duration2) == Min(duration1, duration2)
              && (0.0 < p <==> 0.0 < duration1 && 0.0 < duration2)
  {
    var longer := Max(duration1, duration2);
    var relative := Abs(duration1 - duration2) / longer;
    assert relative == 0.0 <==> duration1 == duration2;
    if 0.0 <= duration1 && 0.0 <= duration2 then
      RelativeDifference(duration1, duration2);
      Max(0.0, 1.0 - relative)
    else
      Max(0.0, 1.0 - relative)
  }

  /** For non-negative durations the relative difference is at most 1, and 1
      minus it, times the longer duration, is the shorter one. */
  lemma RelativeDifference(duration1: real, duration2: real)
    requires 0.0 <= duration1 && 0.0 <= duration2 && Max(duration1, duration2) != 0.0
    ensures var longer := Max(duration1, duration2);
            var relative := Abs(duration1 - duration2) / longer;
            relative <= 1.0 && (1.0 - relative) * longer == Min(duration1, duration2)
  {
    var longer, shorter := Max(duration1, duration2), Min(duration1, duration2);
    var relative := Abs(duration1 - duration2) / longer;
    assert Abs(duration1 - duration2) == longer - shorter;
    assert relative * longer == longer - shorter;
    QuotientBound(longer - shorter, longer, 1.0);
    assert (1.0 - relative) * longer == longer - relative * longer;
  }

  /** The penalty does not depend on the order of the durations. */
  lemma DurationPenaltySymmetric(duration1: real, duration2: real)
    requires Max(duration1, duration2) != 0.0
    ensures DurationPenalty(duration1, duration2) == DurationPenalty(duration2, duration1)
  {
  }

  /** Durations of 2 and 1 seconds halve the score. */
  lemma DurationPenaltyHalf()
    ensures DurationPenalty(2.0, 1.0) == 0.5
  {
  }

  // ---------------------------------------------------------------------
  // compareWaveforms: specification
  // ---------------------------------------------------------------------

  /** The common length: the shorter of the two. */
  function TargetLength(waveform1: seq<real>, waveform2: seq<real>): (t: nat)
    ensures t <= |waveform1| && t <= |waveform2|
    ensures t == |waveform1| || t == |waveform2|
  {
    if |waveform1| < |waveform2| then |waveform1| else |waveform2|
  }

  /** The index read at step i: floor(i * (length / targetLength)). */
  function SampleIndex(i: nat, length: nat, targetLength: nat): int
    requires 0 < targetLength
  {
    (i as real * (length as real / targetLength as real)).Floor
  }

  /** Every index read lies inside the waveform, so the guard of the loop
      always holds. */
  lemma SampleIndexInBounds(i: nat, length: nat, targetLength: nat)
    requires i < targetLength <= length
    ensures 0 <= SampleIndex(i, length, targetLength) < length
  {
    var step := length as real / targetLength as real;
    assert 0.0 < step;
    assert targetLength as real * step == length as real;
    assert (targetLength - i) as real * step == length as real - i as real * step;
    MulPositive((targetLength - i) as real, step);
    MulMonotone(0.0, i as real, step);
  }

  /** For the shorter waveform the step is exactly 1, so step i reads index i. */
  lemma SampleIndexOfShorter(i: nat, targetLength: nat)
    requires 0 < targetLength
    ensures SampleIndex(i, targetLength, targetLength) == i
  {
    assert targetLength as real / targetLength as real == 1.0;
  }

  /** Later steps never read earlier indices. */
  lemma SampleIndexMonotone(i: nat, j: nat, length: nat, targetLength: nat)
    requires i <= j && 0 < targetLength
    ensures SampleIndex(i, length, targetLength) <= SampleIndex(j, length, targetLength)
  {
    var step := length as real / targetLength as real;
    assert 0.0 <= step;
    MulMonotone(i as real, j as real, step);
  }

  /** The similarity of the pair read at step i. */
  function PairSimilarity(waveform1: seq<real>, waveform2: seq<real>, i: nat): real
    requires 0 < |waveform1| && 0 < |waveform2|
    requires i < TargetLength(waveform1, waveform2)
  {
    var t := TargetLength(waveform1, waveform2);
    SampleIndexInBounds(i, |waveform1|, t);
    SampleIndexInBounds(i, |waveform2|, t);
    1.0 - Abs(waveform1[SampleIndex(i, |waveform1|, t)] - waveform2[SampleIndex(i, |waveform2|, t)])
  }

  /** The sum of the first k pair similarities. */
  function SimilaritySum(waveform1: seq<real>, waveform2: seq<real>, k: nat): real
    requires 0 < |waveform1| && 0 < |waveform2|
    requires k <= TargetLength(waveform1, waveform2)
  {
    if k == 0 then 0.0
    else SimilaritySum(waveform1, waveform2, k - 1) + PairSimilarity(waveform1, waveform2, k - 1)
  }

  /** The mean pair similarity over all TargetLength steps. */
  function WaveformSimilarity(waveform1: seq<real>, waveform2: seq<real>): real
    requires 0 < |waveform1| && 0 < |waveform2|
  {
    var t := TargetLength(waveform1, waveform2);
    SimilaritySum(waveform1, waveform2, t) / t as real
  }

  // ---------------------------------------------------------------------
  // compareWaveforms: properties
  // ---------------------------------------------------------------------

  lemma {:induction false} SimilaritySumSelf(w: seq<real>, k: nat)
    requires 0 < |w| && k <= |w|
    ensures SimilaritySum(w, w, k) == k as real
  {
    if k > 0 {
      SimilaritySumSelf(w, k - 1);
    }
  }

  /** A waveform compared with itself scores exactly 1. */
  lemma WaveformSelfSimilarity(w: seq<real>)
    requires 0 < |w|
    ensures WaveformSimilarity(w, w) == 1.0
  {
    var t := TargetLength(w, w);
    SimilaritySumSelf(w, t);
    assert SimilaritySum(w, w, t) == t as real;
    assert t as real / t as real == 1.0;
  }

  lemma {:induction false} SimilaritySumSymmetric(waveform1: seq<real>, waveform2: seq<real>, k: nat)
    requires 0 < |waveform1| && 0 < |waveform2|
    requires k <= TargetLength(waveform1, waveform2)
    ensures SimilaritySum(waveform1, waveform2, k) == SimilaritySum(waveform2, waveform1, k)
  {
    if k > 0 {
      SimilaritySumSymmetric(waveform1, waveform2, k - 1);
      assert PairSimilarity(waveform1, waveform2, k - 1) == PairSimilarity(waveform2, waveform1, k - 1);
    }
  }

  /** The waveform comparison does not depend on the order of its arguments. */
  lemma WaveformSimilaritySymmetric(waveform1: seq<real>, waveform2: seq<real>)
    requires 0 < |waveform1| && 0 < |waveform2|
    ensures WaveformSimilarity(waveform1, waveform2) == WaveformSimilarity(waveform2, waveform1)
  {
    SimilaritySumSymmetric(waveform1, waveform2, TargetLength(waveform1, waveform2));
  }

  lemma {:induction false} SimilaritySumBounds(waveform1: seq<real>, waveform2: seq<real>, k: nat)
    requires 0 < |waveform1| && 0 < |waveform2|
    requires k <= TargetLength(waveform1, waveform2)
    ensures SimilaritySum(waveform1, waveform2, k) <= k as real
    ensures InUnitRange(waveform1) && InUnitRange(waveform2) ==>
              -(k as real) <= SimilaritySum(waveform1, waveform2, k)
  {
    if k > 0 {
      SimilaritySumBounds(waveform1, waveform2, k - 1);
      var t := TargetLength(waveform1, waveform2);
      SampleIndexInBounds(k - 1, |waveform1|, t);
      SampleIndexInBounds(k - 1, |waveform2|, t);
    }
  }

  /** The waveform comparison is at most 1; for waveforms in [-1, 1] (as
      normalised waveforms are) it is at least -1, not 0. */
  lemma WaveformSimilarityBounds(waveform1: seq<real>, waveform2: seq<real>)
    requires 0 < |waveform1| && 0 < |waveform2|
    ensures WaveformSimilarity(waveform1, waveform2) <= 1.0
    ensures InUnitRange(waveform1) && InUnitRange(waveform2) ==>
              -1.0 <= WaveformSimilarity(waveform1, waveform2)
  {
    hide SimilaritySum, InUnitRange;
    var t := TargetLength(waveform1, waveform2);
    SimilaritySumBounds(waveform1, waveform2, t);
    var sum := SimilaritySum(waveform1, waveform2, t);
    assert WaveformSimilarity(waveform1, waveform2) == sum / t as real;
    QuotientBound(sum, t as real, 1.0);
    if InUnitRange(waveform1) && InUnitRange(waveform2) {
      QuotientBound(-sum, t as real, 1.0);
      NegQuotient(sum, t as real);
    }
  }

  /** Two opposite one-sample waveforms score -1. */
  lemma OppositeWaveforms()
    ensures WaveformSimilarity([1.0], [-1.0]) == -1.0
  {
    assert SampleIndex(0, 1, 1) == 0;
    assert PairSimilarity([1.0], [-1.0], 0) == -1.0;
  }

  /** One more step reads two indices inside the waveforms and adds their
      pair similarity. */
  lemma SimilaritySumStep(waveform1: seq<real>, waveform2: seq<real>, i: nat)
    requires 0 < |waveform1| && 0 < |waveform2|
    requires i < TargetLength(waveform1, waveform2)
    ensures var t := TargetLength(waveform1, waveform2);
            var idx1, idx2 := SampleIndex(i, |waveform1|, t), SampleIndex(i, |waveform2|, t);
            0 <= idx1 < |waveform1| && 0 <= idx2 < |waveform2|
            && SimilaritySum(waveform1, waveform2, i + 1)
               == SimilaritySum(waveform1, waveform2, i) + (1.0 - Abs(waveform1[idx1] - waveform2[idx2]))
  {
    var t := TargetLength(waveform1, waveform2);
    SampleIndexInBounds(i, |waveform1|, t);
    SampleIndexInBounds(i, |waveform2|, t);
  }

  // ---------------------------------------------------------------------
  // compareWaveforms: the code
  // ---------------------------------------------------------------------

  /** `compareWaveforms`: subsample both waveforms to the shorter length by
      floored index arithmetic and average 1 - |difference| over the pairs.
      The guard never fails, so every one of the TargetLength steps counts;
      an empty waveform would make the final division 0 / 0. */
  method CompareWaveforms(waveform1: seq<real>, waveform2: seq<real>) returns (r: real)
    requires 0 < |waveform1| && 0 < |waveform2|
    ensures r == WaveformSimilarity(waveform1, waveform2)
  {
    assert SimilaritySum(waveform1, waveform2, 0) == 0.0;
    // from here on the step lemma is all the loop needs from the specification
    hide SimilaritySum, PairSimilarity;
    var targetLength := if |waveform1| < |waveform2| then |waveform1| else |waveform2|;
    var step1 := |waveform1| as real / targetLength as real;
    var step2 := |waveform2| as real / targetLength as real;
    var similarity := 0.0;
    var totalComparisons := 0;
    for i := 0 to targetLength
      invariant similarity == SimilaritySum(waveform1, waveform2, i)
      invariant totalComparisons == i
    {
      var idx1 := (i as real * step1).Floor;
      var idx2 := (i as real * step2).Floor;
      assert idx1 == SampleIndex(i, |waveform1|, targetLength);
      assert idx2 == SampleIndex(i, |waveform2|, targetLength);
      SimilaritySumStep(waveform1, waveform2, i);
      if idx1 < |waveform1| && idx2 < |waveform2| {
        var diff := Abs(waveform1[idx1] - waveform2[idx2]);
        similarity := similarity + (1.0 - diff);
        totalComparisons := totalComparisons + 1;
      }
    }
    r := similarity / totalComparisons as real;
  }

  // ---------------------------------------------------------------------
  // compareFeatures
  // ---------------------------------------------------------------------

  /** What the code needs to avoid 0 / 0: non-empty waveforms and non-zero
      durations. */
  predicate Comparable(f1: AudioFeatures, f2: AudioFeatures)
  {
    0 < |f1.waveform| && 0 < |f2.waveform| && f1.duration != 0.0 && f2.duration != 0.0
  }

  /** The five similarities of two records; zero crossings are compared as
      rates per second. */
  function SimilaritiesOf(f1: AudioFeatures, f2: AudioFeatures): Similarities
    requires Comparable(f1, f2)
  {
    Similarities(
      WaveformSimilarity(f1.waveform, f2.waveform),
      CompareValues(f1.energy, f2.energy),
      CompareValues(f1.zeroCrossings as real / f1.duration, f2.zeroCrossings as real / f2.duration),
      CompareValues(f1.spectralCentroid, f2.spectralCentroid),
      CompareValues(f1.spectralFlatness, f2.spectralFlatness))
  }

  /** The final score: the blend times the duration penalty. */
  function Score(f1: AudioFeatures, f2: AudioFeatures): real
    requires Comparable(f1, f2)
  {
    Blend(SimilaritiesOf(f1, f2)) * DurationPenalty(f1.duration, f2.duration)
  }

  /** The weights are positive and sum to 1. */
  lemma WeightsSumToOne()
    ensures 0.0 < WEIGHTS.waveform && 0.0 < WEIGHTS.energy && 0.0 < WEIGHTS.zeroCrossings
    ensures 0.0 < WEIGHTS.spectralCentroid && 0.0 < WEIGHTS.spectralFlatness
    ensures WEIGHTS.waveform + WEIGHTS.energy + WEIGHTS.zeroCrossings
            + WEIGHTS.spectralCentroid + WEIGHTS.spectralFlatness == 1.0
  {
  }

  /** The blend is a convex combination: for values in [lo, hi] it lies
      in [lo, hi]. */
  lemma BlendConvex(s: Similarities, lo: real, hi: real)
    requires lo <= s.waveform <= hi && lo <= s.energy <= hi && lo <= s.zeroCrossings <= hi
    requires lo <= s.spectralCentroid <= hi && lo <= s.spectralFlatness <= hi
    ensures lo <= Blend(s) <= hi
  {
    WeightsSumToOne();
  }

  /** The blend loop over the entries computes the blend formula. */
  lemma BlendLoopIsBlend(s: Similarities)
    ensures WeightedPrefix(Entries(s), Entries(WEIGHTS), 5) == Blend(s)
  {
    var e, w := Entries(s), Entries(WEIGHTS);
    assert WeightedPrefix(e, w, 1) == s.waveform * WEIGHTS.waveform;
    assert WeightedPrefix(e, w, 3) == WeightedPrefix(e, w, 2) + s.zeroCrossings * WEIGHTS.zeroCrossings;
    assert WeightedPrefix(e, w, 5) == WeightedPrefix(e, w, 4) + s.spectralFlatness * WEIGHTS.spectralFlatness;
  }

  /** A record compared with itself scores exactly 1. */
  lemma ScoreSelf(f: AudioFeatures)
    requires 0 < |f.waveform| && f.duration != 0.0
    ensures Score(f, f) == 1.0
  {
    WaveformSelfSimilarity(f.waveform);
    assert SimilaritiesOf(f, f) == Similarities(1.0, 1.0, 1.0, 1.0, 1.0);
  }

  /** Each of the five similarities is symmetric. */
  lemma SimilaritiesSymmetric(f1: AudioFeatures, f2: AudioFeatures)
    requires Comparable(f1, f2)
    ensures SimilaritiesOf(f1, f2) == SimilaritiesOf(f2, f1)
  {
    WaveformSimilaritySymmetric(f1.waveform, f2.waveform);
    CompareValuesSymmetric(f1.energy, f2.energy);
    CompareValuesSymmetric(f1.zeroCrossings as real / f1.duration, f2.zeroCrossings as real / f2.duration);
    CompareValuesSymmetric(f1.spectralCentroid, f2.spectralCentroid);
    CompareValuesSymmetric(f1.spectralFlatness, f2.spectralFlatness);
  }

  /** The score does not depend on the order of the records. */
  lemma ScoreSymmetric(f1: AudioFeatures, f2: AudioFeatures)
    requires Comparable(f1, f2)
    ensures Score(f1, f2) == Score(f2, f1)
  {
    // the two symmetry lemmas are all the proof needs from these definitions
    hide Blend, CompareValues, WaveformSimilarity, DurationPenalty;
    SimilaritiesSymmetric(f1, f2);
    DurationPenaltySymmetric(f1.duration, f2.duration);
  }

  /** Records in the range extraction guarantees (`InExtractedRange`, which
      `ExtractFromChannelData` ensures for a positive duration and a
      non-negative sample rate) score at most 1 and at least -0.3; the score
      is not negative when the waveform term is not. */
  lemma ScoreBounds(f1: AudioFeatures, f2: AudioFeatures)
    requires InExtractedRange(f1) && InExtractedRange(f2)
    ensures -0.3 <= Score(f1, f2) <= 1.0
    ensures 0.0 <= WaveformSimilarity(f1.waveform, f2.waveform) ==> 0.0 <= Score(f1, f2)
  {
    // the contracts of these definitions and the lemmas about them are all
    // the proof needs
    hide CompareValues, WaveformSimilarity, DurationPenalty;
    var s := SimilaritiesOf(f1, f2);
    WaveformSimilarityBounds(f1.waveform, f2.waveform);
    assert 0.0 <= f1.zeroCrossings as real / f1.duration;
    assert 0.0 <= f2.zeroCrossings as real / f2.duration;
    assert 0.0 <= s.energy && 0.0 <= s.zeroCrossings;
    assert 0.0 <= s.spectralCentroid && 0.0 <= s.spectralFlatness;
    var total := Blend(s);
    assert -0.3 <= total <= 1.0;
    assert 0.0 <= s.waveform ==> 0.0 <= total;
    var p := DurationPenalty(f1.duration, f2.duration);
    assert Score(f1, f2) == total * p;
    PenalisedBounds(total, p);
  }

  /** Scaling by a factor in [0, 1] keeps a value of [-0.3, 1] in that
      range and keeps its sign. */
  lemma PenalisedBounds(total: real, p: real)
    requires -0.3 <= total <= 1.0 && 0.0 <= p <= 1.0
    ensures -0.3 <= total * p <= 1.0
    ensures 0.0 <= total ==> 0.0 <= total * p
  {
    if 0.0 <= total {
      MulMonotone(0.0, total, p);
      MulMonotone(p, 1.0, total);
      assert total * p == p * total <= total;
    } else {
      MulMonotone(-0.3, total, p);
      MulMonotone(p, 1.0, 0.3);
      MulMonotone(total, 0.0, p);
    }
  }

  /** The similarities of the two records of `ScoreCanBeNegative`. */
  lemma NegativeExampleSimilarities(f1: AudioFeatures, f2: AudioFeatures)
    requires f1 == AudioFeatures([1.0], 1.0, 0, 1.0, 0.0, 1.0, 1.0)
    requires f2 == AudioFeatures([-1.0], 1.0, 1, 1.0, 1.0, 0.5, 1.0)
    ensures Comparable(f1, f2)
    ensures SimilaritiesOf(f1, f2) == Similarities(-1.0, 1.0, 0.0, 0.0, 0.5)
  {
    hide WaveformSimilarity, CompareValues;
    OppositeWaveforms();
    CompareValuesExamples();
    assert f2.zeroCrossings as real / f2.duration == 1.0;
  }

  /** A zero against a one is not similar at all; 1 against 0.5 is half similar. */
  lemma CompareValuesExamples()
    ensures CompareValues(0.0, 1.0) == 0.0
    ensures CompareValues(1.0, 0.5) == 0.5
  {
    assert Max(Abs(0.0), Abs(1.0)) == 1.0 && Abs(0.0 - 1.0) == 1.0;
    assert Max(Abs(1.0), Abs(0.5)) == 1.0 && Abs(1.0 - 0.5) == 0.5;
  }

  /** Two records in the extracted range can score below 0: opposite
      one-sample waveforms outweigh equal energies and half-similar
      flatnesses. */
  lemma ScoreCanBeNegative(f1: AudioFeatures, f2: AudioFeatures)
    requires f1 == AudioFeatures([1.0], 1.0, 0, 1.0, 0.0, 1.0, 1.0)
    requires f2 == AudioFeatures([-1.0], 1.0, 1, 1.0, 1.0, 0.5, 1.0)
    ensures InExtractedRange(f1) && InExtractedRange(f2)
    ensures Score(f1, f2) == -0.05
  {
    hide SimilaritiesOf, DurationPenalty;
    NegativeExampleSimilarities(f1, f2);
    assert DurationPenalty(1.0, 1.0) == 1.0;
  }

  /** `compareFeatures`: the five similarities, the blend loop over them with
      the fixed weights, times the duration penalty. */
  method CompareFeatures(features1: AudioFeatures, features2: AudioFeatures) returns (score: real)
    requires Comparable(features1, features2)
    ensures score == Score(features1, features2)
  {
    // the proof follows the code step by step and needs none of these bodies
    hide Blend, CompareValues, WaveformSimilarity, DurationPenalty;
    var waveform := CompareWaveforms(features1.waveform, features2.waveform);
    var similarities := Similarities(
      waveform,
      CompareValues(features1.energy, features2.energy),
      CompareValues(features1.zeroCrossings as real / features1.duration,
                    features2.zeroCrossings as real / features2.duration),
      CompareValues(features1.spectralCentroid, features2.spectralCentroid),
      CompareValues(features1.spectralFlatness, features2.spectralFlatness));
    var entries, weights := Entries(similarities), Entries(WEIGHTS);
    var totalSimilarity := 0.0;
    for k := 0 to |entries|
      invariant totalSimilarity == WeightedPrefix(entries, weights, k)
    {
      totalSimilarity := totalSimilarity + entries[k] * weights[k];
    }
    BlendLoopIsBlend(similarities);
    var durationPenalty := DurationPenalty(features1.duration, features2.duration);
    score := totalSimilarity * durationPenalty;
  }
}
