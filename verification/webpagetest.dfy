/** The WebPageTest client: query defaults of `runTest`, the threshold score of
    `calculatePerformanceScore` and the response transformation of
    `getTestResults`. */
module WebPageTest {
  import opened Wrappers
  import opened Js
  import opened Metrics

  // ---------------------------------------------------------------------------
  // runTest: the query string.

  datatype TestOptions = TestOptions(
    url: string,
    location: Option<string>,
    runs: Option<int>,
    firstViewOnly: Option<bool>,
    connectivity: Option<string>,
    video: Option<bool>,
    timeline: Option<bool>,
    lighthouse: Option<bool>)

  /** A boolean option as a query flag: `'1'` only when it is `true`. */
  function Flag(b: Option<bool>): (f: string)
    ensures f == "1" <==> b == Some(true)
    ensures f == "0" <==> b != Some(true)
  {
    if b == Some(true) then "1" else "0"
  }

  /** `(options.runs || 1)`: absent or 0 means one run. */
  function RunCount(runs: Option<int>): (n: int)
    ensures n != 0
    ensures runs.None? || runs.value == 0 ==> n == 1
    ensures runs.Some? && runs.value != 0 ==> n == runs.value
  {
    if runs.Some? && runs.value != 0 then runs.value else 1
  }

  /** The parameters `runTest` sends, in the order they are written. */
  function RunTestParams(apiKey: string, options: TestOptions): (q: seq<(string, string)>)
    ensures |q| == 10
    ensures q[0] == ("k", apiKey) && q[1] == ("url", options.url) && q[2] == ("f", "json")
    ensures q[3].0 == "location" && q[4].0 == "runs" && q[5].0 == "fvonly" && q[6].0 == "connectivity"
    ensures q[7].0 == "video" && q[8].0 == "timeline" && q[9].0 == "lighthouse"
    // defaults
    ensures options.location.None? || options.location.value == "" ==> q[3].1 == "Dulles:Chrome"
    ensures options.runs.None? || options.runs == Some(0) ==> q[4].1 == "1"
    ensures options.connectivity.None? || options.connectivity.value == "" ==> q[6].1 == "Cable"
    // given values are kept
    ensures options.location.Some? && options.location.value != "" ==> q[3].1 == options.location.value
    ensures options.connectivity.Some? && options.connectivity.value != "" ==> q[6].1 == options.connectivity.value
    ensures q[4].1 == IntToString(RunCount(options.runs))
    // each flag is '1' exactly when its option is true
    ensures q[5].1 == Flag(options.firstViewOnly) && q[7].1 == Flag(options.video)
    ensures q[8].1 == Flag(options.timeline) && q[9].1 == Flag(options.lighthouse)
  {
    [ ("k", apiKey),
      ("url", options.url),
      ("f", "json"),
      ("location", OrString(options.location, "Dulles:Chrome")),
      ("runs", IntToString(RunCount(options.runs))),
      ("fvonly", Flag(options.firstViewOnly)),
      ("connectivity", OrString(options.connectivity, "Cable")),
      ("video", Flag(options.video)),
      ("timeline", Flag(options.timeline)),
      ("lighthouse", Flag(options.lighthouse)) ]
  }

  // ---------------------------------------------------------------------------
  // calculatePerformanceScore.

  /** The deduction for one metric: `major` above `high`, `minor` above `low`,
      nothing otherwise (both comparisons strict). */
  function Penalty(value: real, low: real, high: real, minor: nat, major: nat): nat {
    if value > high then major else if value > low then minor else 0
  }

  /** A larger metric value is never penalised less. */
  lemma PenaltyMonotone(x: real, y: real, low: real, high: real, minor: nat, major: nat)
    requires x <= y && low <= high && minor <= major
    ensures Penalty(x, low, high, minor, major) <= Penalty(y, low, high, minor, major)
  {
  }

  function LcpPenalty(v: WebVitals): nat { Penalty(v.LCP, 2500.0, 4000.0, 10, 25) }
  function FidPenalty(v: WebVitals): nat { Penalty(v.FID, 100.0, 300.0, 8, 20) }
  function ClsPenalty(v: WebVitals): nat { Penalty(v.CLS, 0.1, 0.25, 8, 20) }
  function SiPenalty(v: WebVitals): nat { Penalty(v.SI, 3400.0, 5800.0, 6, 15) }
  function TtfbPenalty(v: WebVitals): nat { Penalty(v.TTFB, 800.0, 1800.0, 4, 10) }
  function FcpPenalty(v: WebVitals): nat { Penalty(v.FCP, 1800.0, 3000.0, 4, 10) }

  function TotalPenalty(v: WebVitals): nat {
    LcpPenalty(v) + FidPenalty(v) + ClsPenalty(v) + SiPenalty(v) + TtfbPenalty(v) + FcpPenalty(v)
  }

  /** The score as a function: 100 less the deductions, clamped at 0. */
  function PerformanceScore(v: WebVitals): (s: int)
    ensures 0 <= s <= 100
    // the clamp never bites: the deductions add up to at most 100
    ensures s == 100 - TotalPenalty(v)
  {
    if 100 - TotalPenalty(v) < 0 then 0 else 100 - TotalPenalty(v)
  }

  /** Every metric at or below its lower threshold, and only then, gives 100. */
  lemma PerfectScore(v: WebVitals)
    ensures PerformanceScore(v) == 100 <==>
              v.LCP <= 2500.0 && v.FID <= 100.0 && v.CLS <= 0.1 && v.SI <= 3400.0 && v.TTFB <= 800.0 && v.FCP <= 1800.0
  {
  }

  /** Every metric above its upper threshold, and only then, gives 0. */
  lemma ZeroScore(v: WebVitals)
    ensures PerformanceScore(v) == 0 <==>
              v.LCP > 4000.0 && v.FID > 300.0 && v.CLS > 0.25 && v.SI > 5800.0 && v.TTFB > 1800.0 && v.FCP > 3000.0
  {
  }

  /** Componentwise order on vitals: `w` is no better than `v` on any metric. */
  predicate NoBetter(v: WebVitals, w: WebVitals) {
    v.LCP <= w.LCP && v.FID <= w.FID && v.CLS <= w.CLS && v.SI <= w.SI && v.TTFB <= w.TTFB && v.FCP <= w.FCP
  }

  /** Raising metrics never raises the score. */
  lemma {:induction false} ScoreMonotone(v: WebVitals, w: WebVitals)
    requires NoBetter(v, w)
    ensures PerformanceScore(w) <= PerformanceScore(v)
  {
    PenaltyMonotone(v.LCP, w.LCP, 2500.0, 4000.0, 10, 25);
    PenaltyMonotone(v.FID, w.FID, 100.0, 300.0, 8, 20);
    PenaltyMonotone(v.CLS, w.CLS, 0.1, 0.25, 8, 20);
    PenaltyMonotone(v.SI, w.SI, 3400.0, 5800.0, 6, 15);
    PenaltyMonotone(v.TTFB, w.TTFB, 800.0, 1800.0, 4, 10);
    PenaltyMonotone(v.FCP, w.FCP, 1800.0, 3000.0, 4, 10);
  }

  /** `calculatePerformanceScore`: starts from 100 and subtracts step by step. */
  method CalculatePerformanceScore(webVitals: WebVitals) returns (result: int)
    ensures result == PerformanceScore(webVitals)
    ensures 0 <= result <= 100
  {
    var score := 100;
    score := score - (if webVitals.LCP > 4000.0 then 25 else if webVitals.LCP > 2500.0 then 10 else 0);
    score := score - (if webVitals.FID > 300.0 then 20 else if webVitals.FID > 100.0 then 8 else 0);
    score := score - (if webVitals.CLS > 0.25 then 20 else if webVitals.CLS > 0.1 then 8 else 0);
    score := score - (if webVitals.SI > 5800.0 then 15 else if webVitals.SI > 3400.0 then 6 else 0);
    score := score - (if webVitals.TTFB > 1800.0 then 10 else if webVitals.TTFB > 800.0 then 4 else 0);
    score := score - (if webVitals.FCP > 3000.0 then 10 else if webVitals.FCP > 1800.0 then 4 else 0);

    // Math.round is the identity on the integer score
    RoundWhole(score);
    var rounded := Round(score as real);
    result := if rounded < 0 then 0 else rounded;
  }

  // ---------------------------------------------------------------------------
  // getTestResults.

  datatype ChromeUserTiming = ChromeUserTiming(
    LargestContentfulPaint: Option<real>,
    FirstInputDelay: Option<real>,
    CumulativeLayoutShift: Option<real>)

  /** One `firstView` of the provider; any field may be missing. */
  datatype RawFirstView = RawFirstView(
    loadTime: Option<real>,
    TTFB: Option<real>,
    render: Option<real>,
    visualComplete: Option<real>,
    SpeedIndex: Option<real>,
    requestsDoc: Option<real>,
    bytesInDoc: Option<real>,
    requests: Option<real>,
    bytesIn: Option<real>,
    firstContentfulPaint: Option<real>,
    chromeUserTiming: Option<ChromeUserTiming>)

  datatype RawRun = RawRun(firstView: Option<RawFirstView>)

  datatype RawLighthouse = RawLighthouse(
    Performance: Option<real>,
    Accessibility: Option<real>,
    BestPractices: Option<real>,
    SEO: Option<real>)

  /** `data.data`; `runs` lists the values of the provider's `runs` object in key
      order, element 0 being run `1`. */
  datatype ResultData = ResultData(url: Option<string>, runs: seq<RawRun>, lighthouse: Option<RawLighthouse>)

  datatype ResultBody = ResultBody(statusCode: int, statusText: string, data: Option<ResultData>)

  /** The body is `None` when it is JSON `null`. */
  datatype HttpResponse = HttpResponse(ok: bool, statusText: string, body: Result<Option<ResultBody>, Thrown>)

  /** Output fields copied from the provider stay `undefined` (`None`) when missing. */
  datatype Summary = Summary(
    score: int,
    grade: Grade,
    loadTime: Option<real>,
    firstByteTime: Option<real>,
    startRender: Option<real>,
    visualComplete: Option<real>,
    speedIndex: Option<real>,
    requestsDoc: Option<real>,
    bytesInDoc: Option<real>,
    requests: Option<real>,
    bytesIn: Option<real>)

  datatype LighthouseScores = LighthouseScores(
    performance: Option<real>,
    accessibility: Option<real>,
    bestPractices: Option<real>,
    seo: Option<real>)

  datatype FirstView = FirstView(
    loadTime: Option<real>,
    TTFB: Option<real>,
    render: Option<real>,
    visualComplete: Option<real>,
    speedIndex: Option<real>,
    bytesIn: Option<real>,
    requests: Option<real>)

  datatype Run = Run(firstView: FirstView)

  datatype TestResults = TestResults(
    testId: string,
    url: Option<string>,
    summary: Summary,
    webVitals: WebVitals,
    lighthouse: Option<LighthouseScores>,
    runs: seq<Run>)

  /** `x || 0` for a metric. */
  function Or0(x: Option<real>): real {
    x.GetOr(0.0)
  }

  /** The Web Vitals read from the first view; missing or zero values give 0,
      and FID has no fallback. */
  function VitalsOf(fv: RawFirstView): (v: WebVitals)
    ensures fv.chromeUserTiming.None? ==> v.LCP == 0.0 && v.FID == 0.0 && v.CLS == 0.0
    ensures fv.chromeUserTiming.Some? ==> v.FID == Or0(fv.chromeUserTiming.value.FirstInputDelay)
    ensures fv.chromeUserTiming.Some? ==> v.LCP == Or0(fv.chromeUserTiming.value.LargestContentfulPaint)
    ensures fv.chromeUserTiming.Some? ==> v.CLS == Or0(fv.chromeUserTiming.value.CumulativeLayoutShift)
    ensures v.TTFB == Or0(fv.TTFB) && v.FCP == Or0(fv.firstContentfulPaint) && v.SI == Or0(fv.SpeedIndex)
  {
    var timing := fv.chromeUserTiming;
    WebVitals(
      if timing.Some? then Or0(timing.value.LargestContentfulPaint) else 0.0,
      if timing.Some? then Or0(timing.value.FirstInputDelay) else 0.0,
      if timing.Some? then Or0(timing.value.CumulativeLayoutShift) else 0.0,
      Or0(fv.TTFB),
      Or0(fv.firstContentfulPaint),
      Or0(fv.SpeedIndex))
  }

  /** One output run: the first view's fields, `SpeedIndex` renamed `speedIndex`. */
  function RunOf(fv: RawFirstView): (r: Run)
    ensures r.firstView.speedIndex == fv.SpeedIndex
    ensures r.firstView.loadTime == fv.loadTime && r.firstView.TTFB == fv.TTFB && r.firstView.render == fv.render
    ensures r.firstView.visualComplete == fv.visualComplete && r.firstView.bytesIn == fv.bytesIn
    ensures r.firstView.requests == fv.requests
  {
    Run(FirstView(fv.loadTime, fv.TTFB, fv.render, fv.visualComplete, fv.SpeedIndex, fv.bytesIn, fv.requests))
  }

  /** The `map` over runs; `None` when some run has no `firstView` (reading a
      field of it throws). */
  function MapRuns(runs: seq<RawRun>): (r: Option<seq<Run>>)
    ensures r.Some? <==> forall i :: 0 <= i < |runs| ==> runs[i].firstView.Some?
    ensures r.Some? ==> |r.value| == |runs| && forall i :: 0 <= i < |runs| ==> r.value[i] == RunOf(runs[i].firstView.value)
    decreases |runs|
  {
    if runs == [] then Some([])
    else if runs[0].firstView.None? then None
    else
      var rest := MapRuns(runs[1..]);
      if rest.None? then None else Some([RunOf(runs[0].firstView.value)] + rest.value)
  }

  function LighthouseOf(l: RawLighthouse): LighthouseScores {
    LighthouseScores(l.Performance, l.Accessibility, l.BestPractices, l.SEO)
  }

  /** The transformation after a complete test's first view was found. */
  function Transform(testId: string, result: ResultData, firstView: RawFirstView): (r: Option<TestResults>)
    requires |result.runs| > 0 && result.runs[0].firstView == Some(firstView)
    ensures r.Some? <==> forall i :: 0 <= i < |result.runs| ==> result.runs[i].firstView.Some?
    ensures r.Some? ==> r.value.testId == testId && r.value.url == result.url
    // the score and grade come from the first view's Web Vitals
    ensures r.Some? ==> r.value.webVitals == VitalsOf(firstView)
    ensures r.Some? ==> r.value.summary.score == PerformanceScore(r.value.webVitals)
    ensures r.Some? ==> r.value.summary.grade == GetGrade(r.value.summary.score)
    // the other summary fields are the first view's, renamed
    ensures r.Some? ==> var sm := r.value.summary;
            && sm.loadTime == firstView.loadTime && sm.firstByteTime == firstView.TTFB
            && sm.startRender == firstView.render && sm.visualComplete == firstView.visualComplete
            && sm.speedIndex == firstView.SpeedIndex && sm.requestsDoc == firstView.requestsDoc
            && sm.bytesInDoc == firstView.bytesInDoc && sm.requests == firstView.requests
            && sm.bytesIn == firstView.bytesIn
    // the Lighthouse scores are copied when present
    ensures r.Some? ==> (r.value.lighthouse.Some? <==> result.lighthouse.Some?)
    ensures r.Some? && result.lighthouse.Some? ==>
              var l := r.value.lighthouse.value;
              var raw := result.lighthouse.value;
              l.performance == raw.Performance && l.accessibility == raw.Accessibility
              && l.bestPractices == raw.BestPractices && l.seo == raw.SEO
    // every run is mapped, in order
    ensures r.Some? ==> MapRuns(result.runs).Some? && r.value.runs == MapRuns(result.runs).value
    ensures r.Some? ==> |r.value.runs| == |result.runs| && r.value.runs[0] == RunOf(firstView)
  {
    var webVitals := VitalsOf(firstView);
    var score := PerformanceScore(webVitals);
    var runs := MapRuns(result.runs);
    if runs.None? then None
    else Some(TestResults(
      testId,
      result.url,
      Summary(score, GetGrade(score), firstView.loadTime, firstView.TTFB, firstView.render,
              firstView.visualComplete, firstView.SpeedIndex, firstView.requestsDoc,
              firstView.bytesInDoc, firstView.requests, firstView.bytesIn),
      webVitals,
      if result.lighthouse.Some? then Some(LighthouseOf(result.lighthouse.value)) else None,
      runs.value))
  }

  const NoTestDataMessage: string := "No test data available"

  /** `getTestResults` after the request: throws on a non-OK status, on a body
      whose `statusCode` is not 200, and when run 1 has no first view. */
  function GetTestResults(testId: string, fetched: Result<HttpResponse, Thrown>): (r: Result<TestResults, Thrown>)
    ensures fetched.Failure? ==> r == Failure(fetched.error)
    ensures fetched.Success? && !fetched.value.ok ==>
              r == Failure(Error("Error", "WebPageTest API error: " + fetched.value.statusText))
    ensures fetched.Success? && fetched.value.ok && fetched.value.body.Failure? ==> r == Failure(fetched.value.body.error)
    ensures fetched.Success? && fetched.value.ok && fetched.value.body == Success(None) ==>
              r == Failure(TypeError("statusCode of null"))
    ensures fetched.Success? && fetched.value.ok && fetched.value.body.Success? && fetched.value.body.value.Some? ==>
              var body := fetched.value.body.value.value;
              && (body.statusCode != 200 ==>
                    r == Failure(Error("Error", "Test not complete or failed: " + body.statusText)))
              && (body.statusCode == 200 && body.data.None? ==> r == Failure(TypeError("runs of undefined")))
              && (body.statusCode == 200 && body.data.Some?
                  && (|body.data.value.runs| == 0 || body.data.value.runs[0].firstView.None?) ==>
                    r == Failure(Error("Error", NoTestDataMessage)))
    // it succeeds exactly for an OK, complete response whose every run has a first view ...
    ensures r.Success? <==>
              && fetched.Success? && fetched.value.ok && fetched.value.body.Success?
              && fetched.value.body.value.Some?
              && fetched.value.body.value.value.statusCode == 200
              && fetched.value.body.value.value.data.Some?
              && |fetched.value.body.value.value.data.value.runs| > 0
              && forall i :: 0 <= i < |fetched.value.body.value.value.data.value.runs| ==>
                   fetched.value.body.value.value.data.value.runs[i].firstView.Some?
    // ... and then gives the transformation of run 1's first view
    ensures r.Success? ==>
              var d := fetched.value.body.value.value.data.value;
              Transform(testId, d, d.runs[0].firstView.value) == Some(r.value)
    ensures r.Success? ==> r.value.summary.grade == GetGrade(r.value.summary.score) && 0 <= r.value.summary.score <= 100
  {
    match fetched
    case Failure(e) => Failure(e)
    case Success(response) =>
      if !response.ok then Failure(Error("Error", "WebPageTest API error: " + response.statusText))
      else match response.body
        case Failure(e) => Failure(e)
        case Success(None) => Failure(TypeError("statusCode of null"))
        case Success(Some(body)) =>
          if body.statusCode != 200 then Failure(Error("Error", "Test not complete or failed: " + body.statusText))
          else if body.data.None? then Failure(TypeError("runs of undefined"))
          else
            var result := body.data.value;
            if |result.runs| == 0 || result.runs[0].firstView.None? then Failure(Error("Error", NoTestDataMessage))
            else
              var transformed := Transform(testId, result, result.runs[0].firstView.value);
              if transformed.None? then Failure(TypeError("firstView of a run without one"))
              else Success(transformed.value)
  }
}
