# DeepSentinel analysis server — verdict rule and face analyser in Dafny

This project models the decision logic of the DeepSentinel AI analysis server.
It has two parts.

- **The verdict rule** (`ai_server/main.py`). Six metric scores (eye blink
  rate, lip sync, lighting consistency, facial artifacts, texture quality,
  motion smoothness) are combined with fixed weights into one overall score.
  That score maps to the label `real`, `uncertain` or `fake` and to a
  confidence value. The simulated metric generator is part of this model:
  the value ranges it draws from for "deepfake" and "genuine" videos are
  modelled, with the random draws passed in as parameters. The upload
  endpoint's content-type gate and its success and error paths are modelled
  too.
- **The face analyser** (`ai_server/face_analyzer.py`). This is a state
  machine over video frames. Its state is the previous eye aspect ratio
  (EAR), the blink count and the count of frames with a face. It counts a
  blink on each falling edge of the average EAR across 0.2. It can be reset.
  For each frame it reports six metrics, each clamped with `min`/`max`.
  A face frame whose later computation raises still updates the counters.

Every Python float is a Dafny `real`. Files:

- `prelude.dfy`: `Option`, `Result`, and Python's `min`, `max` and `abs` on
  reals.
- `verdict.dfy`: the weighted score, the verdict, and the generator ranges.
- `upload.dfy`: the content-type gate and the `analyze_video` endpoint logic.
- `face_analyzer.dfy`: the analyser state, the step function, the fold over
  a sequence of frames, and the metric clamps.

Main results:

- **Score range.** The weights sum to one. So six metrics in 0-100 give a
  score in 0-100.
- **Labels.** Each label is chosen by exactly one score band.
- **Confidence.** Every confidence lies in [0.5, 0.95]. All three branch
  formulas equal one reference formula, `min(max(score, 100 − score)/100, 0.95)`.
- **Monotonicity.** Improving any metric never makes the verdict more
  suspicious.
- **Generator ranges.** The genuine ranges always give `real`. The deepfake
  ranges never do.
- **Blink count.** After any run of frames, the blink count equals the number
  of positions in the face-frame EAR sequence where the eyes close. This is
  stated as a set of indices that does not depend on the step function.
- **Closed-eye stretch.** A stretch of closed-eye frames adds exactly one
  blink, even if frames without a face interrupt it.

## Model

| member | source | states |
|---|---|---|
| Verdict.Score | ai_server/main.py:103-110 | if all six metrics lie in 0-100, the weighted score lies in 0-100 |
| Verdict.UniformScore | ai_server/main.py:103-110 | the six weights sum to one: metrics that all read `c` (artifacts `100 − c`) score exactly `c` |
| Verdict.Judge | ai_server/main.py:112-121 | `real` iff score ≥ 75; `uncertain` iff 50 ≤ score < 75; `fake` iff score < 50. Confidence is in [0.5, 0.95]. It is ≥ 0.75 for `real`, < 0.75 for `uncertain` and > 0.5 for `fake` |
| Verdict.Assess | ai_server/main.py:92-123 | `calculate_overall_score` gives each label for exactly its score band, with confidence in [0.5, 0.95] (within the documented 0-1) |
| Verdict.JudgeConfidenceIsReference | ai_server/main.py:113-121 | the per-branch confidence formulas agree with the single formula `min(max(score, 100 − score)/100, 0.95)` for every score |
| Verdict.JudgeMonotone | ai_server/main.py:113-121 | a higher score never gives a more suspicious label (fake < uncertain < real) |
| Verdict.AssessMonotone | ai_server/main.py:103-121 | raising blink, lip-sync, lighting, texture or motion, or lowering facial artifacts, never lowers the score or moves the label towards `fake` |
| Verdict.Uniform | ai_server/main.py:71-86 | `random.uniform(lo, hi)` with a draw in [0, 1) lies in [lo, hi] |
| Verdict.Generate | ai_server/main.py:57-89 | generated metrics lie in 0-100, in the deepfake ranges when the draw is below 0.4 and in the genuine ranges otherwise |
| Verdict.GenuineRangesAreReal | ai_server/main.py:80-87 | metrics in the genuine ranges score at least 75.75 and are labelled `real` |
| Verdict.FakeRangesAreNotReal | ai_server/main.py:70-77 | metrics in the deepfake ranges score between 32.25 and 58.75 and are never labelled `real` |
| Verdict.RangeBoundsAttained | ai_server/main.py:70-86 | the bounds 75.75, 32.25 and 58.75 are reached by corner points of the ranges, so they cannot be tightened |
| Verdict.GeneratedVerdict | ai_server/main.py:66-89 | the verdict on generated metrics is `real` exactly when the generator chose a genuine video |
| Upload.StartsWith | ai_server/main.py:245 | `startswith` holds exactly when the prefix is a prefix of the string |
| Upload.CheckContentType | ai_server/main.py:245-249 | an upload passes exactly when its content type is present and starts with `video/`; otherwise the error is 400 with the fixed message |
| Upload.LabelName | ai_server/main.py:114-120 | the name is `real` exactly for the label Real, `uncertain` exactly for Uncertain and `fake` exactly for Fake |
| Upload.LabelNameInjective | ai_server/main.py:114-120 | distinct labels go out under distinct names |
| Upload.AnalyzeVideo | ai_server/main.py:230-289 | success exactly when the type gate passes and nothing raised. Every failure is 400 or 500. 400 with the fixed message exactly when the gate fails. 500 with detail "Analysis failed: " followed by the exception message exactly when the gate passes and the analysis raised. On success, `result` is `real` iff score ≥ 75, `uncertain` iff 50 ≤ score < 75, `fake` iff score < 50. The confidence is the verdict's, in [0.5, 0.95]. Metrics, report and elapsed time are passed through |
| FaceAnalyzer.Reset | ai_server/face_analyzer.py:229-235 | reset leaves no previous EAR and zero counts, which satisfies the analyser invariant |
| FaceAnalyzer.ResetForgetsHistory | ai_server/face_analyzer.py:229-235 | on every sequence of observations, a reset analyser produces the same outputs and final state as one with the initial counters |
| FaceAnalyzer.Advance | ai_server/face_analyzer.py:188-194 | a face frame adds 1 to the frame count and records its EAR. It adds a blink exactly on a falling edge (EAR < 0.2 with the previous EAR absent or ≥ 0.2), and at most one. `blinkCount ≤ frameCount` is preserved |
| FaceAnalyzer.BlinkRate | ai_server/face_analyzer.py:196-217 | the reported blink rate lies in 0-100. It is 0 with no blinks and saturates at 100 exactly when there is at least one blink per 18 frames |
| FaceAnalyzer.BlinkRateMonotone | ai_server/face_analyzer.py:196-217 | over the same frames, more blinks never lower the blink rate, and strictly raise it while the smaller count is below saturation |
| FaceAnalyzer.RateSaturation | ai_server/face_analyzer.py:197 | `blinks / frames × 60 × 30` is non-negative and reaches 100 exactly when `18 × blinks ≥ frames` |
| FaceAnalyzer.LightingConsistency | ai_server/face_analyzer.py:208-210 | lighting consistency lies in 0-100. It is 100 exactly for zero spread and 0 exactly from spread 200 on |
| FaceAnalyzer.FacialArtifacts | ai_server/face_analyzer.py:220 | facial artifacts lie in 0-100. The value is 100 only for zero yaw and pitch, and 0 exactly when abs(yaw) + abs(pitch) ≥ 100 |
| FaceAnalyzer.LipSyncScore | ai_server/face_analyzer.py:218 | lip sync is at most 100, is 100 exactly when the MAR is ≤ 0, and is negative exactly when the MAR exceeds 1 |
| FaceAnalyzer.TextureQuality | ai_server/face_analyzer.py:212-214 | texture quality is at most 100, non-negative for non-negative variance, and 100 exactly from variance 1000 on |
| FaceAnalyzer.MotionSmoothness | ai_server/face_analyzer.py:222 | motion smoothness is at most 95 (the cap at 100 never binds). It equals 95 exactly with zero roll and is negative exactly when abs(roll) > 95 |
| FaceAnalyzer.Measure | ai_server/face_analyzer.py:196-227 | the returned metrics satisfy all the clamp bounds and carry the frame's average EAR, MAR and angles. Each score comes from its own input: the blink rate from the counters, lip sync from the MAR, lighting from the brightness spread, artifacts from yaw and pitch, texture from the Laplacian variance, motion from the roll |
| FaceAnalyzer.Step | ai_server/face_analyzer.py:155-227 | a frame on which anything before the counter update raises gives the exception and leaves the state unchanged. A frame without a face returns `None` and leaves the state unchanged. A frame with a face updates the counters as in `Advance`, even when a later computation raises. It then gives the exception, or exactly the metrics `Measure` computes from the updated state and the observation. Reported metrics are bounded. The invariant is preserved |
| FaceAnalyzer.Run | ai_server/face_analyzer.py:155-194 | over a frame sequence, the output is `None` exactly on the no-face frames and an exception exactly on the frames that raised, before or after detection. Every reported metric set is bounded, and the invariant `blinkCount ≤ frameCount` holds throughout |
| FaceAnalyzer.OnsetsExtend | ai_server/face_analyzer.py:189-191 | one more EAR reading adds an eye-closure position exactly when it is a falling edge relative to the previous reading |
| FaceAnalyzer.RunOutputsAreSteps | ai_server/face_analyzer.py:155-227 | each output of a run is the step function's output for that frame in the state left by the frames before it |
| FaceAnalyzer.RunReportsRunningCounts | ai_server/face_analyzer.py:189-227 | a face frame in a run reports its observation's metrics over the counters as they stand after it: frames grown by the faces so far, blinks grown by the eye closures so far, its own EAR as previous EAR. The blink rate is taken over those running counts |
| FaceAnalyzer.RunMatchesReference | ai_server/face_analyzer.py:188-194 | from any state, a run adds the number of frames with a face (including those that later raised) to the frame count. It leaves the last face's EAR as the previous EAR. It adds the number of eye-closure positions of the face EARs to the blink count |
| FaceAnalyzer.FreshRunCountsClosures | ai_server/face_analyzer.py:43-45 | from the initial state, blinks equal eye closures and frames equal face frames, so blinks ≤ frames |
| FaceAnalyzer.ClosedRunIsOneBlink | ai_server/face_analyzer.py:189-193 | a stretch of closed-eye frames, even with no-face frames inside it, adds exactly one blink if the eyes were open before it and none otherwise |

## Left out

- Floating point: every float is an exact `real`. Rounding at the thresholds
  (75, 50, 0.2) and NaN or infinite inputs are not modelled.
- Random number generation: the values of `random.random()` arrive as
  parameters in [0, 1) (`Verdict.Generate`).
- The report generator (`generate_gpt_report`): the external language-model
  call, the prompt and the fallback text are outside the model. The report is
  a plain string parameter of `Upload.AnalyzeVideo`. That function never
  raises because it catches its own errors.
- HTTP plumbing: the FastAPI app, CORS settings, the `/` and `/api/health`
  endpoints and uvicorn startup.
- I/O and timing in `analyze_video`: reading the upload, logging, the
  simulated 0.5 s delay and the clock. The elapsed time is a parameter. An
  exception raised while reading or analysing is the `fault` parameter.
- MediaPipe face detection and OpenCV image operations: colour conversion,
  `solvePnP`, `Rodrigues`, the Laplacian and the standard deviation. Their
  outputs (face present or not, brightness spread, Laplacian variance) are
  inputs of each frame.
- EAR, MAR and Euler-angle geometry (`calculate_ear`, `calculate_mar`,
  `get_face_angle`): these use norms and trigonometry. The left and right
  EAR, the MAR and the angles are abstract real inputs. Only the averaging of
  the two EARs is modelled.
- Which frames make OpenCV or the geometry raise: the model does not decide
  this. A frame that raised is an input of its own kind: `Unreadable` when anything
  before the counter update raised (colour conversion, face search, landmark
  conversion or eye-ratio computation), `FaceThenError`, carrying only
  its two eye aspect ratios, when a later computation raised.
- The landmark index tables and the face-mesh settings in the analyser
  constructor, and `__del__` cleanup.
- The record submission, dispatch and reconciliation pipeline, from the
  wider DeepSentinel system: that service's source is not part of this model.
