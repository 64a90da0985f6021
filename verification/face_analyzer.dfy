/** The frame-by-frame face analyser. It keeps three pieces of state (the
    previous eye aspect ratio, the blink count and the count of frames with a
    face), counts a blink on each falling edge of the eye aspect ratio across
    the closed-eye threshold, and reports six clamped metrics per frame.

    Landmark detection and the geometry behind the eye aspect ratio (EAR),
    mouth aspect ratio (MAR), head angles, brightness spread and Laplacian
    variance are outside the model: they arrive as real-valued observations. */
module FaceAnalyzer {
  import opened Prelude

  /** An average EAR below this value means the eyes are closed. */
  const ClosedEyeThreshold: real := 0.2
  /** The blink rate assumes this frame rate. */
  const FramesPerSecond: nat := 30
  const SecondsPerMinute: nat := 60

  /** Head pose in degrees. */
  datatype Angles = Angles(pitch: real, yaw: real, roll: real)

  /** What the landmark and image computations yield for one frame with a face. */
  datatype Observation = Observation(
    leftEar: real,
    rightEar: real,
    mar: real,
    angles: Angles,
    brightnessStd: real,
    laplacianVar: real
  )

  /** One input frame. Something before the counter update raised
      (`Unreadable`: the colour conversion, the face search, or, after a
      face was found, the landmark conversion or the eye-ratio computation);
      or no face was detected; or a face was observed and every metric
      computed; or a face was observed and its two eye aspect ratios computed,
      after which a later computation (mouth ratio, head pose, grey conversion
      or Laplacian) raised an exception. */
  datatype Frame =
    | Unreadable
    | NoFace
    | Face(obs: Observation)
    | FaceThenError(leftEar: real, rightEar: real)
  {
    /** A face was detected, so the counters move. */
    predicate FaceSeen() {
      Face? || FaceThenError?
    }
  }

  /** The analyser's time-series state. */
  datatype State = State(prevEar: Option<real>, blinkCount: nat, frameCount: nat)

  /** The metrics reported for a frame with a face. */
  datatype FrameMetrics = FrameMetrics(
    eyeBlinkRate: real,
    lipSyncScore: real,
    lightingConsistency: real,
    facialArtifacts: real,
    textureQuality: real,
    motionSmoothness: real,
    angles: Angles,
    ear: real,
    mar: real
  )

  /** What one call of `analyze_frame` gives its caller: `None` when no face
      is detected, the metrics, or an exception. */
  datatype FrameOutput = NotDetected | Reported(metrics: FrameMetrics) | Raised

  datatype StepResult = StepResult(state: State, output: FrameOutput)

  datatype RunResult = RunResult(state: State, outputs: seq<FrameOutput>)

  /** The state of a freshly constructed analyser. */
  const Initial: State := State(None, 0, 0)

  /** The invariant the analyser keeps: no more blinks than face frames, and
      a previous EAR exactly when some face frame has been seen. */
  predicate Valid(s: State) {
    && s.blinkCount <= s.frameCount
    && (s.prevEar.None? <==> s.frameCount == 0)
  }

  function MeanEar(leftEar: real, rightEar: real): real {
    (leftEar + rightEar) / 2.0
  }

  function AverageEar(o: Observation): real {
    MeanEar(o.leftEar, o.rightEar)
  }

  /** The average EAR of a frame in which a face was seen. */
  function SeenEar(f: Frame): real
    requires f.FaceSeen()
  {
    match f
    case Face(o) => AverageEar(o)
    case FaceThenError(l, r) => MeanEar(l, r)
  }

  /** The eyes were open before this frame: either no EAR was recorded yet or
      the recorded one was at or above the threshold. */
  predicate WasOpen(prev: Option<real>) {
    prev.None? || prev.value >= ClosedEyeThreshold
  }

  /** A blink starts on a frame whose EAR is below the threshold when the
      eyes were open before it: a falling edge. */
  predicate IsBlinkOnset(prev: Option<real>, ear: real) {
    ear < ClosedEyeThreshold && WasOpen(prev)
  }

  /** `reset`: forget all history. */
  function Reset(s: State): (r: State)
    ensures r.prevEar.None? && r.blinkCount == 0 && r.frameCount == 0
    ensures Valid(r)
  {
    Initial
  }

  /** The counter update for a frame with a face whose average EAR is `ear`. */
  function Advance(s: State, ear: real): (t: State)
    ensures t.frameCount == s.frameCount + 1
    ensures t.prevEar == Some(ear)
    ensures s.blinkCount <= t.blinkCount <= s.blinkCount + 1
    ensures t.blinkCount == s.blinkCount + 1 <==> IsBlinkOnset(s.prevEar, ear)
    ensures Valid(s) ==> Valid(t)
  {
    var blinks := if IsBlinkOnset(s.prevEar, ear) then s.blinkCount + 1 else s.blinkCount;
    State(Some(ear), blinks, s.frameCount + 1)
  }

  // ---------------------------------------------------------------------
  // Metric clamps.

  /** Blinks per minute at 30 frames per second, capped at 100. The rate
      saturates exactly when there is at least one blink per 18 frames. */
  function BlinkRate(blinks: nat, frames: nat): (r: real)
    ensures InPercent(r)
    ensures blinks == 0 ==> r == 0.0
    ensures frames >= 1 ==> (r == 100.0 <==> 18 * blinks >= frames)
  {
    var denominator := if frames > 1 then frames else 1;
    var perFrame := blinks as real / denominator as real;
    RateSaturation(blinks, denominator);
    Min(100.0, perFrame * (SecondsPerMinute as real) * (FramesPerSecond as real))
  }

  /** The uncapped rate reaches 100 exactly at one blink per 18 frames. */
  lemma RateSaturation(blinks: nat, frames: nat)
    requires frames >= 1
    ensures var rate := blinks as real / frames as real
                       * (SecondsPerMinute as real) * (FramesPerSecond as real);
            rate >= 0.0 && (rate >= 100.0 <==> 18 * blinks >= frames)
  {
  }

  /** Over the same frames, more blinks never lower the rate, and below
      saturation every extra blink raises it. */
  lemma BlinkRateMonotone(fewer: nat, more: nat, frames: nat)
    requires fewer <= more
    ensures BlinkRate(fewer, frames) <= BlinkRate(more, frames)
    ensures fewer < more && 18 * fewer < frames ==>
              BlinkRate(fewer, frames) < BlinkRate(more, frames)
  {
    var denominator := if frames > 1 then frames else 1;
    var scale := (SecondsPerMinute as real) * (FramesPerSecond as real);
    assert fewer as real / denominator as real <= more as real / denominator as real;
    assert fewer as real / denominator as real * scale
           <= more as real / denominator as real * scale;
    if fewer < more {
      assert fewer as real / denominator as real < more as real / denominator as real;
    }
  }

  /** Lighting consistency from the brightness standard deviation, clamped to
      0-100: 100 for a uniform frame, 0 once the spread reaches 200. */
  function LightingConsistency(brightnessStd: real): (r: real)
    ensures InPercent(r)
    ensures r == 100.0 <==> brightnessStd <= 0.0
    ensures r == 0.0 <==> brightnessStd >= 200.0
  {
    Min(100.0, Max(0.0, 100.0 - brightnessStd / 2.0))
  }

  /** Facial-artifact score from head yaw and pitch, floored at 0: 100 only for
      a frontal face, 0 once the two angles add up to 100 degrees. */
  function FacialArtifacts(a: Angles): (r: real)
    ensures InPercent(r)
    ensures r == 100.0 <==> a.yaw == 0.0 && a.pitch == 0.0
    ensures r == 0.0 <==> Abs(a.yaw) + Abs(a.pitch) >= 100.0
  {
    Max(0.0, 100.0 - Abs(a.yaw) - Abs(a.pitch))
  }

  /** Lip-sync score from the MAR, capped at 100 but not floored: it is
      negative exactly when the MAR exceeds 1. */
  function LipSyncScore(mar: real): (r: real)
    ensures r <= 100.0
    ensures r == 100.0 <==> mar <= 0.0
    ensures r < 0.0 <==> mar > 1.0
  {
    Min(100.0, (1.0 - mar) * 100.0)
  }

  /** Texture quality from the Laplacian variance, capped at 100; it is
      non-negative for a non-negative variance and saturates from 1000 on. */
  function TextureQuality(laplacianVar: real): (r: real)
    ensures r <= 100.0
    ensures laplacianVar >= 0.0 ==> r >= 0.0
    ensures r == 100.0 <==> laplacianVar >= 1000.0
  {
    Min(100.0, laplacianVar / 10.0)
  }

  /** Motion smoothness from the head roll. The cap at 100 never binds: the
      score is at most 95, reached only with no roll, and negative once the
      roll exceeds 95 degrees. */
  function MotionSmoothness(roll: real): (r: real)
    ensures r <= 95.0
    ensures r == 95.0 <==> roll == 0.0
    ensures r < 0.0 <==> Abs(roll) > 95.0
  {
    Min(100.0, 95.0 - Abs(roll))
  }

  /** Bounds every reported metric satisfies. */
  predicate MetricsBounded(m: FrameMetrics) {
    && InPercent(m.eyeBlinkRate)
    && m.lipSyncScore <= 100.0
    && InPercent(m.lightingConsistency)
    && InPercent(m.facialArtifacts)
    && m.textureQuality <= 100.0
    && m.motionSmoothness <= 95.0
  }

  /** The metrics reported for observation `o`, given the state after the
      counters have been updated for this frame. */
  function Measure(s: State, o: Observation): (m: FrameMetrics)
    ensures MetricsBounded(m)
    ensures o.laplacianVar >= 0.0 ==> m.textureQuality >= 0.0
    ensures m.ear == AverageEar(o) && m.mar == o.mar && m.angles == o.angles
    ensures m.eyeBlinkRate == BlinkRate(s.blinkCount, s.frameCount)
    ensures m.lipSyncScore == LipSyncScore(o.mar)
    ensures m.lightingConsistency == LightingConsistency(o.brightnessStd)
    ensures m.facialArtifacts == FacialArtifacts(o.angles)
    ensures m.textureQuality == TextureQuality(o.laplacianVar)
    ensures m.motionSmoothness == MotionSmoothness(o.angles.roll)
  {
    FrameMetrics(
      BlinkRate(s.blinkCount, s.frameCount),
      LipSyncScore(o.mar),
      LightingConsistency(o.brightnessStd),
      FacialArtifacts(o.angles),
      TextureQuality(o.laplacianVar),
      MotionSmoothness(o.angles.roll),
      o.angles,
      AverageEar(o),
      o.mar
    )
  }

  // ---------------------------------------------------------------------
  // The state machine.

  /** `analyze_frame`. A frame on which anything before the counter update
      raises gives the exception and leaves the state alone; a frame without a face returns `None` and leaves
      the state alone. A frame with a face counts one more frame, records its
      average EAR and counts a blink exactly on a falling edge; these updates
      precede the mouth, pose and image computations, so they stand even when
      one of those raises. Otherwise the metrics are returned, with the blink
      rate taken over the updated counters. */
  function Step(s: State, f: Frame): (r: StepResult)
    ensures !f.FaceSeen() ==> r.state == s
    ensures r.output.NotDetected? <==> f.NoFace?
    ensures f.FaceSeen() ==>
              && r.state.frameCount == s.frameCount + 1
              && r.state.prevEar == Some(SeenEar(f))
              && s.blinkCount <= r.state.blinkCount <= s.blinkCount + 1
              && (r.state.blinkCount == s.blinkCount + 1
                  <==> IsBlinkOnset(s.prevEar, SeenEar(f)))
    ensures r.output.Reported? <==> f.Face?
    ensures r.output.Raised? <==> f.Unreadable? || f.FaceThenError?
    ensures f.Face? ==> r.output == Reported(Measure(r.state, f.obs))
    ensures r.output.Reported? ==>
              && MetricsBounded(r.output.metrics)
              && r.output.metrics.eyeBlinkRate
                 == BlinkRate(r.state.blinkCount, r.state.frameCount)
    ensures Valid(s) ==> Valid(r.state)
  {
    match f
    case Unreadable => StepResult(s, Raised)
    case NoFace => StepResult(s, NotDetected)
    case Face(o) =>
      var t := Advance(s, AverageEar(o));
      StepResult(t, Reported(Measure(t, o)))
    case FaceThenError(l, r) =>
      StepResult(Advance(s, MeanEar(l, r)), Raised)
  }

  /** Feeds `frames` to the analyser in order, collecting one output per
      frame; a caller that catches an exception keeps the same analyser. */
  function Run(s: State, frames: seq<Frame>): (r: RunResult)
    ensures |r.outputs| == |frames|
    ensures forall i :: 0 <= i < |frames| ==>
              && (r.outputs[i].NotDetected? <==> frames[i].NoFace?)
              && (r.outputs[i].Raised? <==> frames[i].Unreadable? || frames[i].FaceThenError?)
    ensures forall i :: 0 <= i < |frames| && r.outputs[i].Reported? ==>
              MetricsBounded(r.outputs[i].metrics)
    ensures Valid(s) ==> Valid(r.state)
    decreases |frames|
  {
    if |frames| == 0 then
      RunResult(s, [])
    else
      var before := Run(s, frames[..|frames| - 1]);
      var last := Step(before.state, frames[|frames| - 1]);
      RunResult(last.state, before.outputs + [last.output])
  }

  // ---------------------------------------------------------------------
  // A reference description of the final state.

  /** The average EARs of the frames in which a face was seen, in order. */
  function FaceEars(frames: seq<Frame>): (ears: seq<real>)
    ensures |ears| <= |frames|
    decreases |frames|
  {
    if |frames| == 0 then []
    else
      var rest := FaceEars(frames[..|frames| - 1]);
      var last := frames[|frames| - 1];
      if last.FaceSeen() then rest + [SeenEar(last)] else rest
  }

  /** The EAR that precedes position `i` of `ears`, `prev` for the first. */
  function EarBefore(prev: Option<real>, ears: seq<real>, i: int): Option<real>
    requires 0 <= i < |ears|
  {
    if i == 0 then prev else Some(ears[i - 1])
  }

  /** The last EAR seen: the last of `ears`, or `prev` if there is none. */
  function LastEar(prev: Option<real>, ears: seq<real>): Option<real> {
    if |ears| == 0 then prev else Some(ears[|ears| - 1])
  }

  /** Position `i` of `ears` is where the eyes close. */
  predicate OnsetAt(prev: Option<real>, ears: seq<real>, i: int) {
    0 <= i < |ears| && IsBlinkOnset(EarBefore(prev, ears, i), ears[i])
  }

  /** The positions of `ears` at which the eyes close. */
  function Onsets(prev: Option<real>, ears: seq<real>): set<int> {
    set i | 0 <= i < |ears| && OnsetAt(prev, ears, i)
  }

  /** Appending one EAR adds an onset exactly when it is a falling edge
      relative to the last EAR before it. */
  lemma OnsetsExtend(prev: Option<real>, ears: seq<real>, e: real)
    ensures |Onsets(prev, ears + [e])|
            == |Onsets(prev, ears)| + (if IsBlinkOnset(LastEar(prev, ears), e) then 1 else 0)
  {
    var ears' := ears + [e];
    var n := |ears|;
    var before := Onsets(prev, ears);
    var after := Onsets(prev, ears');
    var added: set<int> := if IsBlinkOnset(LastEar(prev, ears), e) then {n} else {};
    forall i | 0 <= i < n
      ensures OnsetAt(prev, ears', i) == OnsetAt(prev, ears, i)
    {
      assert ears'[i] == ears[i];
      assert EarBefore(prev, ears', i) == EarBefore(prev, ears, i);
    }
    assert OnsetAt(prev, ears', n) == IsBlinkOnset(LastEar(prev, ears), e) by {
      assert ears'[n] == e;
      assert EarBefore(prev, ears', n) == LastEar(prev, ears);
    }
    assert after == before + added by {
      forall i
        ensures i in after <==> i in before + added
      {
        if 0 <= i < n {
          assert i !in added;
        }
      }
    }
    assert n !in before;
  }

  /** Running the analyser over any frames from any state: the frame count
      grows by the number of frames with a face, the previous EAR is the last
      face's EAR, and the blink count grows by the number of positions in the
      face EARs at which the eyes close. */
  lemma {:induction false} RunMatchesReference(s: State, frames: seq<Frame>)
    ensures var ears := FaceEars(frames);
            Run(s, frames).state
            == State(LastEar(s.prevEar, ears),
                     s.blinkCount + |Onsets(s.prevEar, ears)|,
                     s.frameCount + |ears|)
    decreases |frames|
  {
    if |frames| > 0 {
      var prefix := frames[..|frames| - 1];
      var last := frames[|frames| - 1];
      RunMatchesReference(s, prefix);
      if last.FaceSeen() {
        OnsetsExtend(s.prevEar, FaceEars(prefix), SeenEar(last));
      }
    }
  }

  /** Output `i` of a run is what the step function gives for frame `i` in
      the state reached after the frames before it. */
  lemma {:induction false} RunOutputsAreSteps(s: State, frames: seq<Frame>)
    ensures forall i :: 0 <= i < |frames| ==>
              Run(s, frames).outputs[i] == Step(Run(s, frames[..i]).state, frames[i]).output
    decreases |frames|
  {
    if |frames| > 0 {
      var n := |frames| - 1;
      var prefix := frames[..n];
      RunOutputsAreSteps(s, prefix);
      forall i | 0 <= i < |frames|
        ensures Run(s, frames).outputs[i] == Step(Run(s, frames[..i]).state, frames[i]).output
      {
        if i < n {
          assert frames[..i] == prefix[..i];
          assert frames[i] == prefix[i];
        } else {
          assert frames[..i] == prefix;
        }
      }
    }
  }

  /** Every face frame of a run reports the metrics of its observation over
      the counters as they stand after it: the frame count grown by the faces
      so far, the blink count grown by the eye closures so far, and the
      frame's own EAR as the previous EAR. In particular the blink rate is
      taken over those running counts. */
  lemma RunReportsRunningCounts(s: State, frames: seq<Frame>, i: nat)
    requires i < |frames| && frames[i].Face?
    ensures var ears := FaceEars(frames[..i + 1]);
            var counted := State(Some(AverageEar(frames[i].obs)),
                                 s.blinkCount + |Onsets(s.prevEar, ears)|,
                                 s.frameCount + |ears|);
            && Run(s, frames).outputs[i] == Reported(Measure(counted, frames[i].obs))
            && Run(s, frames).outputs[i].metrics.eyeBlinkRate
               == BlinkRate(counted.blinkCount, counted.frameCount)
  {
    var upTo := frames[..i + 1];
    assert upTo[..i] == frames[..i];
    assert upTo[i] == frames[i];
    RunOutputsAreSteps(s, frames);
    RunMatchesReference(s, upTo);
  }

  /** From a fresh analyser the blink count is the number of eye closures. */
  lemma FreshRunCountsClosures(frames: seq<Frame>)
    ensures Run(Initial, frames).state.blinkCount == |Onsets(None, FaceEars(frames))|
    ensures Run(Initial, frames).state.frameCount == |FaceEars(frames)|
    ensures Run(Initial, frames).state.blinkCount <= Run(Initial, frames).state.frameCount
  {
    RunMatchesReference(Initial, frames);
  }

  // ---------------------------------------------------------------------
  // Runs of closed eyes.

  /** The frame shows closed eyes, or no face was detected in it. */
  predicate ClosedOrAbsent(f: Frame) {
    !f.FaceSeen() || SeenEar(f) < ClosedEyeThreshold
  }

  predicate ContainsFace(frames: seq<Frame>) {
    exists i :: 0 <= i < |frames| && frames[i].FaceSeen()
  }

  /** A stretch of closed-eye frames, possibly interrupted by frames where no
      face is detected, counts as a single blink if the eyes were open before
      it, and as none if they were already closed. */
  lemma {:induction false} ClosedRunIsOneBlink(s: State, frames: seq<Frame>)
    requires forall i :: 0 <= i < |frames| ==> ClosedOrAbsent(frames[i])
    ensures Run(s, frames).state.blinkCount
            == s.blinkCount + (if ContainsFace(frames) && WasOpen(s.prevEar) then 1 else 0)
    ensures ContainsFace(frames) ==> !WasOpen(Run(s, frames).state.prevEar)
    ensures !ContainsFace(frames) ==> Run(s, frames).state == s
    decreases |frames|
  {
    if |frames| > 0 {
      var prefix := frames[..|frames| - 1];
      var last := frames[|frames| - 1];
      assert forall i :: 0 <= i < |prefix| ==> prefix[i] == frames[i];
      ClosedRunIsOneBlink(s, prefix);
      if !last.FaceSeen() {
        if ContainsFace(frames) {
          var i :| 0 <= i < |frames| && frames[i].FaceSeen();
          assert prefix[i].FaceSeen();
        }
      } else {
        assert ClosedOrAbsent(frames[|frames| - 1]);
        assert ContainsFace(frames);
        if ContainsFace(prefix) {
          var i :| 0 <= i < |prefix| && prefix[i].FaceSeen();
          assert frames[i].FaceSeen();
        }
      }
    }
  }

  /** `reset` forgets the counters and the previous EAR: on every sequence
      of observations, a reset analyser produces what a fresh one does. */
  lemma ResetForgetsHistory(s: State, frames: seq<Frame>)
    ensures Run(Reset(s), frames) == Run(Initial, frames)
    ensures Valid(Run(Reset(s), frames).state)
  {
  }
}
