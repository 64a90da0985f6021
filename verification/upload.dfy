/** The analysis endpoint of the server: an upload is first gated on its
    declared content type, then scored by the verdict rule. Reading the file,
    the simulated delay, the random draws, the report text and the clock are
    outside the model and arrive as parameters. */
module Upload {
  import opened Prelude
  import Verdict

  /** An HTTP error as raised to the client. */
  datatype HttpError = HttpError(statusCode: int, detail: string)

  const VideoPrefix: string := "video/"
  const InvalidTypeDetail: string := "Invalid file type. Only video files are supported."
  const FailurePrefix: string := "Analysis failed: "

  /** Python's `s.startswith(p)`, character by character. */
  function StartsWith(s: string, p: string): (r: bool)
    ensures r <==> p <= s
    decreases p
  {
    if |p| == 0 then true
    else if |s| == 0 then false
    else
      assert p <= s <==> p[0] == s[0] && p[1..] <= s[1..] by {
        if p[0] == s[0] && p[1..] <= s[1..] {
          assert p == [p[0]] + p[1..];
          assert s[..|p|] == [s[0]] + s[1..][..|p| - 1];
        }
      }
      s[0] == p[0] && StartsWith(s[1..], p[1..])
  }

  /** The file-type gate of the upload endpoint: a missing or empty content
      type, or one not starting with `video/`, is rejected with a 400 error;
      anything else passes. */
  function CheckContentType(contentType: Option<string>): (r: Option<HttpError>)
    ensures r.None? <==> contentType.Some? && VideoPrefix <= contentType.value
    ensures r.Some? ==> r.value == HttpError(400, InvalidTypeDetail)
  {
    if contentType.None? || |contentType.value| == 0
       || !StartsWith(contentType.value, VideoPrefix) then
      Some(HttpError(400, InvalidTypeDetail))
    else
      None
  }

  /** The wire name of a verdict label. */
  function LabelName(l: Verdict.Label): (name: string)
    ensures name == "real" <==> l == Verdict.Real
    ensures name == "uncertain" <==> l == Verdict.Uncertain
    ensures name == "fake" <==> l == Verdict.Fake
  {
    match l
    case Real => "real"
    case Uncertain => "uncertain"
    case Fake => "fake"
  }

  /** Distinct labels go out under distinct names, so the client can recover
      the verdict from the response. */
  lemma LabelNameInjective(a: Verdict.Label, b: Verdict.Label)
    requires LabelName(a) == LabelName(b)
    ensures a == b
  {
  }

  /** The response body of a successful analysis. */
  datatype AnalysisResponse = AnalysisResponse(
    result: string,
    confidence: real,
    metrics: Verdict.Metrics,
    report: string,
    analysisTime: real
  )

  /** `analyze_video`. `contentType` is the upload's declared type; `fault` is
      the message of an exception raised while reading or analysing the
      upload, if one was raised; `metrics` are the generated metrics;
      `report` is the narrative text and `elapsed` the measured duration. */
  function AnalyzeVideo(contentType: Option<string>, fault: Option<string>,
                        metrics: Verdict.Metrics, report: string, elapsed: real)
    : (r: Result<AnalysisResponse, HttpError>)
    ensures r.Success?
            <==> contentType.Some? && VideoPrefix <= contentType.value && fault.None?
    ensures r.Failure? ==> r.error.statusCode == 400 || r.error.statusCode == 500
    ensures r.Failure? && r.error.statusCode == 400
            <==> !(contentType.Some? && VideoPrefix <= contentType.value)
    ensures r.Failure? && r.error.statusCode == 400 ==> r.error.detail == InvalidTypeDetail
    ensures r.Failure? && r.error.statusCode == 500
            <==> contentType.Some? && VideoPrefix <= contentType.value && fault.Some?
    ensures r.Failure? && r.error.statusCode == 500 ==>
              fault.Some? && r.error.detail == FailurePrefix + fault.value
    ensures r.Success? ==>
              && (r.value.result == "real" <==> Verdict.Score(metrics) >= 75.0)
              && (r.value.result == "uncertain" <==> 50.0 <= Verdict.Score(metrics) < 75.0)
              && (r.value.result == "fake" <==> Verdict.Score(metrics) < 50.0)
              && r.value.confidence == Verdict.Assess(metrics).confidence
              && 0.5 <= r.value.confidence <= 0.95
              && r.value.metrics == metrics
              && r.value.report == report
              && r.value.analysisTime == elapsed
  {
    match CheckContentType(contentType)
    case Some(e) => Failure(e)
    case None =>
      if fault.Some? then
        Failure(HttpError(500, FailurePrefix + fault.value))
      else
        var a := Verdict.Assess(metrics);
        Success(AnalysisResponse(LabelName(a.result), a.confidence, metrics, report, elapsed))
  }
}
