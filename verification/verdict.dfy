/** The deepfake verdict rule of the analysis server: six metric scores are
    combined with fixed weights into one overall score, which is mapped to a
    label (`real`, `uncertain`, `fake`) and a confidence. The simulated metric
    generator is modelled by its value ranges, with the random draws passed in. */
module Verdict {
  import opened Prelude

  /** The six metric scores of one analysis, each documented as 0-100. */
  datatype Metrics = Metrics(
    eyeBlinkRate: real,
    lipSyncScore: real,
    lightingConsistency: real,
    facialArtifacts: real,
    textureQuality: real,
    motionSmoothness: real
  )

  datatype Label = Real | Uncertain | Fake

  /** The pair returned by the verdict rule. */
  datatype Assessment = Assessment(result: Label, confidence: real)

  // Weights of the six metrics in the overall score.
  const BlinkWeight: real := 0.15
  const LipSyncWeight: real := 0.25
  const LightingWeight: real := 0.20
  const ArtifactsWeight: real := 0.25
  const TextureWeight: real := 0.10
  const MotionWeight: real := 0.05

  // Score thresholds and the confidence cap.
  const RealThreshold: real := 75.0
  const UncertainThreshold: real := 50.0
  const ConfidenceCap: real := 0.95

  /** Every metric lies in its documented range 0-100. */
  predicate WellScaled(m: Metrics) {
    && InPercent(m.eyeBlinkRate)
    && InPercent(m.lipSyncScore)
    && InPercent(m.lightingConsistency)
    && InPercent(m.facialArtifacts)
    && InPercent(m.textureQuality)
    && InPercent(m.motionSmoothness)
  }

  /** The weighted overall score. Facial artifacts count against authenticity,
      so they enter as `100 - facialArtifacts`. Because the weights sum to one,
      a well-scaled input gives a score in 0-100. */
  function Score(m: Metrics): (s: real)
    ensures WellScaled(m) ==> InPercent(s)
  {
    m.eyeBlinkRate * BlinkWeight
    + m.lipSyncScore * LipSyncWeight
    + m.lightingConsistency * LightingWeight
    + (100.0 - m.facialArtifacts) * ArtifactsWeight
    + m.textureQuality * TextureWeight
    + m.motionSmoothness * MotionWeight
  }

  /** The label and confidence for an overall score. Each label is chosen by
      exactly one score band, and the confidence of every band lies in
      [0.5, 0.95], inside the documented 0-1 range. */
  function Judge(score: real): (a: Assessment)
    ensures a.result == Real <==> score >= RealThreshold
    ensures a.result == Uncertain <==> UncertainThreshold <= score < RealThreshold
    ensures a.result == Fake <==> score < UncertainThreshold
    ensures 0.5 <= a.confidence <= ConfidenceCap
    ensures a.result == Real ==> 0.75 <= a.confidence
    ensures a.result == Uncertain ==> a.confidence < 0.75
    ensures a.result == Fake ==> 0.5 < a.confidence
  {
    if score >= RealThreshold then
      Assessment(Real, Min(score / 100.0, ConfidenceCap))
    else if score >= UncertainThreshold then
      Assessment(Uncertain, 0.5 + (score - 50.0) / 100.0)
    else
      Assessment(Fake, Min((100.0 - score) / 100.0, ConfidenceCap))
  }

  /** `calculate_overall_score`: the verdict for a set of metrics. */
  function Assess(m: Metrics): (a: Assessment)
    ensures a.result == Real <==> Score(m) >= RealThreshold
    ensures a.result == Uncertain <==> UncertainThreshold <= Score(m) < RealThreshold
    ensures a.result == Fake <==> Score(m) < UncertainThreshold
    ensures 0.5 <= a.confidence <= ConfidenceCap
  {
    Judge(Score(m))
  }

  /** Reference definition of the confidence, independent of the branches:
      the share of the score on the winning side of 50, capped at 0.95. */
  function ReferenceConfidence(score: real): real {
    Min(Max(score, 100.0 - score) / 100.0, ConfidenceCap)
  }

  /** The three per-branch confidence formulas agree with the single reference
      formula: in particular the `uncertain` formula `0.5 + (score - 50) / 100`
      is just `score / 100`, so confidence is continuous at both thresholds. */
  lemma JudgeConfidenceIsReference(score: real)
    ensures Judge(score).confidence == ReferenceConfidence(score)
  {
    if score >= UncertainThreshold {
      assert Max(score, 100.0 - score) == score;
    } else {
      assert Max(score, 100.0 - score) == 100.0 - score;
    }
  }

  /** Ordering of labels from most suspicious to most authentic. */
  function Rank(l: Label): (n: nat)
    ensures n <= 2
    ensures (n == 0 <==> l == Fake) && (n == 2 <==> l == Real)
  {
    match l
    case Fake => 0
    case Uncertain => 1
    case Real => 2
  }

  /** A higher score never gives a more suspicious label. */
  lemma JudgeMonotone(s1: real, s2: real)
    requires s1 <= s2
    ensures Rank(Judge(s1).result) <= Rank(Judge(s2).result)
  {
  }

  /** `better` is at least as authentic-looking as `worse` on every metric:
      higher is better for all metrics except facial artifacts. */
  predicate Dominates(better: Metrics, worse: Metrics) {
    && better.eyeBlinkRate >= worse.eyeBlinkRate
    && better.lipSyncScore >= worse.lipSyncScore
    && better.lightingConsistency >= worse.lightingConsistency
    && better.facialArtifacts <= worse.facialArtifacts
    && better.textureQuality >= worse.textureQuality
    && better.motionSmoothness >= worse.motionSmoothness
  }

  /** Improving any metric never lowers the score, so the verdict never moves
      from `real` towards `fake`. */
  lemma AssessMonotone(better: Metrics, worse: Metrics)
    requires Dominates(better, worse)
    ensures Score(better) >= Score(worse)
    ensures Rank(Assess(better).result) >= Rank(Assess(worse).result)
  {
    JudgeMonotone(Score(worse), Score(better));
  }

  /** The weights sum to one: if every metric reads `c` (facial artifacts
      reading `100 - c`), the overall score is `c`. */
  lemma UniformScore(c: real)
    ensures Score(Metrics(c, c, c, 100.0 - c, c, c)) == c
  {
  }

  // ---------------------------------------------------------------------
  // The simulated metric generator.

  /** `random.uniform(lo, hi)` computes `lo + (hi - lo) * u` for a draw `u`
      of `random.random()`, which lies in [0, 1). */
  function Uniform(lo: real, hi: real, u: real): (x: real)
    requires lo <= hi && 0.0 <= u < 1.0
    ensures lo <= x <= hi
  {
    var width := hi - lo;
    ScaledDrawBounds(width, u);
    lo + width * u
  }

  /** A non-negative width scaled by a draw stays within the width. */
  lemma ScaledDrawBounds(w: real, u: real)
    requires 0.0 <= w && 0.0 <= u < 1.0
    ensures 0.0 <= w * u <= w
  {
  }

  predicate IsDraw(u: real) {
    0.0 <= u < 1.0
  }

  /** The six uniform draws used for one set of metrics. */
  datatype Draws = Draws(blink: real, lipSync: real, lighting: real,
                         artifacts: real, texture: real, motion: real)

  predicate ValidDraws(d: Draws) {
    IsDraw(d.blink) && IsDraw(d.lipSync) && IsDraw(d.lighting)
    && IsDraw(d.artifacts) && IsDraw(d.texture) && IsDraw(d.motion)
  }

  predicate Within(x: real, lo: real, hi: real) {
    lo <= x <= hi
  }

  /** The value ranges used when the generator decides on a deepfake. */
  predicate InFakeRanges(m: Metrics) {
    && Within(m.eyeBlinkRate, 15.0, 35.0)
    && Within(m.lipSyncScore, 50.0, 75.0)
    && Within(m.lightingConsistency, 40.0, 70.0)
    && Within(m.facialArtifacts, 60.0, 90.0)
    && Within(m.textureQuality, 45.0, 70.0)
    && Within(m.motionSmoothness, 50.0, 75.0)
  }

  /** The value ranges used when the generator decides on a genuine video. */
  predicate InGenuineRanges(m: Metrics) {
    && Within(m.eyeBlinkRate, 65.0, 95.0)
    && Within(m.lipSyncScore, 80.0, 98.0)
    && Within(m.lightingConsistency, 75.0, 95.0)
    && Within(m.facialArtifacts, 5.0, 25.0)
    && Within(m.textureQuality, 80.0, 95.0)
    && Within(m.motionSmoothness, 85.0, 98.0)
  }

  /** The generator decides on a deepfake when its first draw falls below
      this share. */
  const FakeShare: real := 0.4

  /** `generate_analysis_metrics`, with its random draws as parameters. */
  function Generate(fakeDraw: real, d: Draws): (m: Metrics)
    requires IsDraw(fakeDraw) && ValidDraws(d)
    ensures WellScaled(m)
    ensures fakeDraw < FakeShare ==> InFakeRanges(m)
    ensures fakeDraw >= FakeShare ==> InGenuineRanges(m)
  {
    if fakeDraw < FakeShare then
      Metrics(Uniform(15.0, 35.0, d.blink), Uniform(50.0, 75.0, d.lipSync),
              Uniform(40.0, 70.0, d.lighting), Uniform(60.0, 90.0, d.artifacts),
              Uniform(45.0, 70.0, d.texture), Uniform(50.0, 75.0, d.motion))
    else
      Metrics(Uniform(65.0, 95.0, d.blink), Uniform(80.0, 98.0, d.lipSync),
              Uniform(75.0, 95.0, d.lighting), Uniform(5.0, 25.0, d.artifacts),
              Uniform(80.0, 95.0, d.texture), Uniform(85.0, 98.0, d.motion))
  }

  /** Metrics from the genuine ranges score at least 75.75 and are labelled
      `real`. */
  lemma GenuineRangesAreReal(m: Metrics)
    requires InGenuineRanges(m)
    ensures Score(m) >= 75.75
    ensures Assess(m).result == Real
  {
  }

  /** Metrics from the deepfake ranges score between 32.25 and 58.75, so they
      are never labelled `real` (they may be `uncertain`). */
  lemma FakeRangesAreNotReal(m: Metrics)
    requires InFakeRanges(m)
    ensures 32.25 <= Score(m) <= 58.75
    ensures Assess(m).result != Real
  {
  }

  /** The bounds above are tight: the least favourable genuine corner scores
      exactly 75.75, and the two extreme deepfake corners score exactly 32.25
      and 58.75. */
  lemma RangeBoundsAttained()
    ensures var low := Metrics(65.0, 80.0, 75.0, 25.0, 80.0, 85.0);
            InGenuineRanges(low) && Score(low) == 75.75
    ensures var worst := Metrics(15.0, 50.0, 40.0, 90.0, 45.0, 50.0);
            InFakeRanges(worst) && Score(worst) == 32.25
    ensures var best := Metrics(35.0, 75.0, 70.0, 60.0, 70.0, 75.0);
            InFakeRanges(best) && Score(best) == 58.75
  {
  }

  /** The generator's decision is reproduced by the verdict: a genuine draw is
      always `real`, a deepfake draw never is. */
  lemma GeneratedVerdict(fakeDraw: real, d: Draws)
    requires IsDraw(fakeDraw) && ValidDraws(d)
    ensures Assess(Generate(fakeDraw, d)).result == Real <==> fakeDraw >= FakeShare
  {
    var m := Generate(fakeDraw, d);
    if fakeDraw < FakeShare {
      FakeRangesAreNotReal(m);
    } else {
      GenuineRangesAreReal(m);
    }
  }
}
