/** The PageSpeed Insights client: the key lookup of `getPageSpeedClient` and the
    normalization of a PageSpeed response into `PageSpeedResults`. */
module PageSpeed {
  import opened Wrappers
  import opened Js
  import opened Metrics

  const DefaultApiBaseUrl: string := "https://www.googleapis.com/pagespeedonline/v5"

  datatype PageSpeedClient = PageSpeedClient(apiKey: string, apiBaseUrl: string)

  /** The client constructor: `config.apiBaseUrl || DefaultApiBaseUrl`. */
  function NewClient(apiKey: string, apiBaseUrl: Option<string>): (c: PageSpeedClient)
    ensures c.apiKey == apiKey
    ensures apiBaseUrl.None? || apiBaseUrl.value == "" ==> c.apiBaseUrl == DefaultApiBaseUrl
    ensures apiBaseUrl.Some? && apiBaseUrl.value != "" ==> c.apiBaseUrl == apiBaseUrl.value
  {
    PageSpeedClient(apiKey, OrString(apiBaseUrl, DefaultApiBaseUrl))
  }

  const MissingKeyMessage: string := "PAGESPEED_API_KEY environment variable is required"

  /** `getPageSpeedClient`: the key is `PAGESPEED_API_KEY`, else
      `GOOGLE_PAGESPEED_API_KEY` (an empty value counts as absent); with neither,
      it throws. The process environment is passed in. */
  function GetPageSpeedClient(pagespeedKey: Option<string>, googleKey: Option<string>): (r: Result<PageSpeedClient, Thrown>)
    ensures r.Failure? <==> (pagespeedKey.None? || pagespeedKey.value == "") && (googleKey.None? || googleKey.value == "")
    ensures r.Failure? ==> r.error == Error("Error", MissingKeyMessage)
    ensures r.Success? ==> r.value.apiBaseUrl == DefaultApiBaseUrl
    ensures r.Success? && pagespeedKey.Some? && pagespeedKey.value != "" ==> r.value.apiKey == pagespeedKey.value
    ensures r.Success? && (pagespeedKey.None? || pagespeedKey.value == "") ==> r.value.apiKey == googleKey.value
  {
    var key := OrString(pagespeedKey, OrString(googleKey, ""));
    if key == "" then Failure(Error("Error", MissingKeyMessage))
    else Success(NewClient(key, None))
  }

  // ---------------------------------------------------------------------------
  // The provider payload. Fields the code reads with `?.` are optional.

  /** One item of the `network-requests` audit; `transferSize` may be missing. */
  datatype NetworkItem = NetworkItem(transferSize: Option<real>)

  /** `details.items` when it is truthy: an array, or some other value. */
  datatype ItemsValue = ItemArray(items: seq<NetworkItem>) | NotAnArray

  /** One audit: its `numericValue` and, for `network-requests`, its
      `details.items` (`None` when missing or falsy). */
  datatype Audit = Audit(numericValue: Option<real>, detailItems: Option<ItemsValue>)

  /** One category: its `score`, `None` when `null` or missing. */
  datatype Category = Category(score: Option<real>)

  /** `lighthouseResult`. A missing `audits` or `categories` object reads as
      `{}`, which is the empty map here. */
  datatype LighthouseResult = LighthouseResult(
    audits: map<string, Audit>,
    categories: map<string, Category>,
    fetchTime: Option<string>)

  /** The response body: `id`, `lighthouseResult`, and
      `loadingExperience.metrics.FIRST_INPUT_DELAY_MS.percentile` when that is a number. */
  datatype Payload = Payload(
    id: Option<string>,
    lighthouseResult: Option<LighthouseResult>,
    fieldFidPercentile: Option<real>)

  /** What `fetch` resolved to: the status flag, its text and the body as
      `response.json()` would deliver it; a body of JSON `null` is `None`. Any
      other JSON value reads like an object, with missing fields. */
  datatype HttpResponse = HttpResponse(ok: bool, statusText: string, body: Result<Option<Payload>, Thrown>)

  // ---------------------------------------------------------------------------
  // The normalized result.

  datatype Summary = Summary(
    score: int,
    grade: Grade,
    loadTime: real,
    firstByteTime: real,
    startRender: real,
    visualComplete: real,
    speedIndex: real,
    requestsDoc: nat,
    bytesInDoc: real,
    requests: nat,
    bytesIn: real)

  /** Lighthouse category scores in percent; `None` is the JSON `null`. */
  datatype LighthouseScores = LighthouseScores(
    performance: Option<int>,
    accessibility: Option<int>,
    bestPractices: Option<int>,
    seo: Option<int>)

  datatype FirstView = FirstView(
    loadTime: real,
    TTFB: real,
    render: real,
    visualComplete: real,
    speedIndex: real,
    bytesIn: real,
    requests: nat)

  datatype Run = Run(firstView: FirstView)

  datatype PageSpeedResults = PageSpeedResults(
    testId: string,
    url: string,
    summary: Summary,
    webVitals: WebVitals,
    lighthouse: LighthouseScores,
    runs: seq<Run>)

  // ---------------------------------------------------------------------------
  // Reading the payload.

  function Audits(data: Payload): map<string, Audit> {
    if data.lighthouseResult.Some? then data.lighthouseResult.value.audits else map[]
  }

  function Categories(data: Payload): map<string, Category> {
    if data.lighthouseResult.Some? then data.lighthouseResult.value.categories else map[]
  }

  /** `audits[name]?.numericValue ?? 0`: a present 0 stays 0. */
  function AuditValue(data: Payload, name: string): (v: real)
    ensures name in Audits(data) && Audits(data)[name].numericValue.Some? ==> v == Audits(data)[name].numericValue.value
    ensures name !in Audits(data) || Audits(data)[name].numericValue.None? ==> v == 0.0
  {
    var audits := Audits(data);
    if name in audits then audits[name].numericValue.GetOr(0.0) else 0.0
  }

  /** `categories[name]?.score`, `None` when `null` or missing. */
  function CategoryScore(data: Payload, name: string): Option<real> {
    var categories := Categories(data);
    if name in categories then categories[name].score else None
  }

  /** A category score as a rounded percentage, `null` exactly when the
      category score is `null` or missing; a present 0 stays 0. */
  function Percent(score: Option<real>): (p: Option<int>)
    ensures p.None? <==> score.None?
    ensures p.Some? ==> p.value == Round(score.value * 100.0)
    ensures score == Some(0.0) ==> p == Some(0)
    ensures score.Some? && 0.0 <= score.value <= 1.0 ==> 0 <= p.value <= 100
  {
    if score.None? then None
    else if 0.0 <= score.value <= 1.0 then RoundPercentInRange(score.value); Some(Round(score.value * 100.0))
    else Some(Round(score.value * 100.0))
  }

  /** The `network-requests` item list, `[]` when missing. */
  function NetworkRequests(data: Payload): Option<ItemsValue> {
    var audits := Audits(data);
    if "network-requests" in audits then audits["network-requests"].detailItems else None
  }

  /** The `reduce`: the sum of `transferSize || 0` over the items. */
  function SumTransfer(items: seq<NetworkItem>): real
    decreases |items|
  {
    if items == [] then 0.0
    else SumTransfer(items[..|items| - 1]) + items[|items| - 1].transferSize.GetOr(0.0)
  }

  /** Items without a size add nothing; sizes that are all non-negative give a
      non-negative total. */
  lemma {:induction false} SumTransferNonNegative(items: seq<NetworkItem>)
    requires forall i :: 0 <= i < |items| && items[i].transferSize.Some? ==> items[i].transferSize.value >= 0.0
    ensures SumTransfer(items) >= 0.0
    decreases |items|
  {
    if items != [] {
      SumTransferNonNegative(items[..|items| - 1]);
    }
  }

  /** `requests`: the number of items, 0 when the list is missing or not an array. */
  function RequestCount(data: Payload): (n: nat)
    ensures NetworkRequests(data).Some? && NetworkRequests(data).value.ItemArray? ==> n == |NetworkRequests(data).value.items|
    ensures NetworkRequests(data).None? || NetworkRequests(data).value.NotAnArray? ==> n == 0
  {
    match NetworkRequests(data)
    case Some(ItemArray(items)) => |items|
    case _ => 0
  }

  /** `bytesIn`: the summed transfer sizes, 0 when the list is missing or not an array. */
  function BytesIn(data: Payload): (b: real)
    ensures NetworkRequests(data).Some? && NetworkRequests(data).value.ItemArray? ==> b == SumTransfer(NetworkRequests(data).value.items)
    ensures NetworkRequests(data).None? || NetworkRequests(data).value.NotAnArray? ==> b == 0.0
  {
    match NetworkRequests(data)
    case Some(ItemArray(items)) => SumTransfer(items)
    case _ => 0.0
  }

  /** The body of `analyze` after the response was read: maps a payload to one
      `PageSpeedResults`. `url` is the analysed address and `now` the decimal
      clock reading used when the payload has no `fetchTime`. */
  function Normalize(data: Payload, url: string, now: string): (r: PageSpeedResults)
    // the grade is always the table's grade of the score
    ensures r.summary.grade == GetGrade(r.summary.score)
    // the summary score is the performance percentage, 0 when that category is missing
    ensures r.summary.score == r.lighthouse.performance.GetOr(0)
    ensures r.lighthouse.performance == Percent(CategoryScore(data, "performance"))
    ensures r.lighthouse.accessibility == Percent(CategoryScore(data, "accessibility"))
    ensures r.lighthouse.bestPractices == Percent(CategoryScore(data, "best-practices"))
    ensures r.lighthouse.seo == Percent(CategoryScore(data, "seo"))
    // missing audits read as 0
    ensures r.webVitals.LCP == AuditValue(data, "largest-contentful-paint")
    ensures r.webVitals.FCP == AuditValue(data, "first-contentful-paint")
    ensures r.webVitals.SI == AuditValue(data, "speed-index")
    ensures r.webVitals.CLS == AuditValue(data, "cumulative-layout-shift")
    ensures r.webVitals.TTFB == AuditValue(data, "server-response-time")
    ensures r.summary.loadTime == AuditValue(data, "interactive")
    // FID is the field percentile when there is one, otherwise Total Blocking Time
    ensures data.fieldFidPercentile.Some? ==> r.webVitals.FID == data.fieldFidPercentile.value
    ensures data.fieldFidPercentile.None? ==> r.webVitals.FID == AuditValue(data, "total-blocking-time")
    // the summary repeats the vitals and the request totals
    ensures r.summary.firstByteTime == r.webVitals.TTFB
    ensures r.summary.startRender == r.webVitals.FCP
    ensures r.summary.visualComplete == r.summary.speedIndex == r.webVitals.SI
    ensures r.summary.requests == r.summary.requestsDoc == RequestCount(data)
    ensures r.summary.bytesIn == r.summary.bytesInDoc == BytesIn(data)
    // exactly one run, copying the summary
    ensures |r.runs| == 1
    ensures r.runs[0].firstView == FirstView(r.summary.loadTime, r.summary.firstByteTime, r.summary.startRender,
                                             r.summary.visualComplete, r.summary.speedIndex, r.summary.bytesIn, r.summary.requests)
    // identifiers: `fetchTime || now` and `data.id || url`
    ensures r.url == OrString(data.id, url)
    ensures r.testId == OrString(if data.lighthouseResult.Some? then data.lighthouseResult.value.fetchTime else None, now)
  {
    var requests := RequestCount(data);
    var bytesIn := BytesIn(data);
    var performance := Percent(CategoryScore(data, "performance"));
    var performanceScore := performance.GetOr(0);
    var lcp := AuditValue(data, "largest-contentful-paint");
    var fcp := AuditValue(data, "first-contentful-paint");
    var si := AuditValue(data, "speed-index");
    var tbt := AuditValue(data, "total-blocking-time");
    var cls := AuditValue(data, "cumulative-layout-shift");
    var ttfb := AuditValue(data, "server-response-time");
    var interactive := AuditValue(data, "interactive");
    var fid := data.fieldFidPercentile.GetOr(tbt);
    PageSpeedResults(
      OrString(if data.lighthouseResult.Some? then data.lighthouseResult.value.fetchTime else None, now),
      OrString(data.id, url),
      Summary(performanceScore, GetGrade(performanceScore), interactive, ttfb, fcp, si, si,
              requests, bytesIn, requests, bytesIn),
      WebVitals(lcp, fid, cls, ttfb, fcp, si),
      LighthouseScores(performance,
                       Percent(CategoryScore(data, "accessibility")),
                       Percent(CategoryScore(data, "best-practices")),
                       Percent(CategoryScore(data, "seo"))),
      [Run(FirstView(interactive, ttfb, fcp, si, si, bytesIn, requests))])
  }

  /** The performance score stays within [0, 100] when the provider's fraction
      is within [0, 1]. */
  lemma ScoreInRange(data: Payload, url: string, now: string)
    requires CategoryScore(data, "performance").Some? ==> 0.0 <= CategoryScore(data, "performance").value <= 1.0
    ensures 0 <= Normalize(data, url, now).summary.score <= 100
  {
  }

  /** `analyze` after the request: a rejected `fetch` or an unreadable body
      rethrows, a non-OK status throws with the status text, a `null` body
      throws on reading `lighthouseResult`, and any other OK response normalizes
      (missing metrics never throw). */
  function Analyze(url: string, fetched: Result<HttpResponse, Thrown>, now: string): (r: Result<PageSpeedResults, Thrown>)
    ensures fetched.Failure? ==> r == Failure(fetched.error)
    ensures fetched.Success? && !fetched.value.ok ==>
              r == Failure(Error("Error", "PageSpeed Insights API error: " + fetched.value.statusText))
    ensures fetched.Success? && fetched.value.ok && fetched.value.body.Failure? ==> r == Failure(fetched.value.body.error)
    ensures fetched.Success? && fetched.value.ok && fetched.value.body == Success(None) ==>
              r == Failure(TypeError("lighthouseResult of null"))
    ensures r.Success? <==> fetched.Success? && fetched.value.ok && fetched.value.body.Success? && fetched.value.body.value.Some?
    ensures r.Success? ==> r.value == Normalize(fetched.value.body.value.value, url, now)
  {
    match fetched
    case Failure(e) => Failure(e)
    case Success(response) =>
      if !response.ok then Failure(Error("Error", "PageSpeed Insights API error: " + response.statusText))
      else match response.body
        case Failure(e) => Failure(e)
        case Success(data) =>
          if data.None? then Failure(TypeError("lighthouseResult of null"))
          else Success(Normalize(data.value, url, now))
  }

  /** A payload with a performance score of 0.95 and an LCP of 1800 normalizes
      to score 95, grade A and LCP 1800. */
  lemma ExampleNormalization(url: string, now: string)
    ensures var data := Payload(None, Some(LighthouseResult(
                          map["largest-contentful-paint" := Audit(Some(1800.0), None)],
                          map["performance" := Category(Some(0.95))],
                          None)), None);
            var r := Normalize(data, url, now);
            r.summary.score == 95 && r.summary.grade == A && r.webVitals.LCP == 1800.0
            && r.lighthouse.accessibility.None? && r.summary.requests == 0
  {
    RoundWhole(95);
  }
}
