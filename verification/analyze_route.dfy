/** `POST /api/ai/analyze`: asks a language model for an analysis of test
    results, strips Markdown code fences from the reply, accepts the parsed reply
    only when it has the expected structure, and otherwise answers with a fixed
    fallback analysis. */
module AnalyzeRoute {
  import opened Wrappers
  import opened Js

  // ---------------------------------------------------------------------------
  // Cleaning the reply: text.replace(/```json\n?|```\n?/g, '').trim()

  /** Drops one leading line feed, the `\n?` of the pattern. */
  function SkipNewline(t: string): (r: string)
    ensures |r| <= |t|
  {
    if |t| > 0 && t[0] == '\n' then t[1..] else t
  }

  /** The global replace, scanning left to right: at each position the first
      alternative (```json) is tried before the second (```), each with an
      optional line feed; matches do not overlap and text between them is kept. */
  function RemoveFences(s: string): (r: string)
    ensures |r| <= |s|
    decreases |s|
  {
    if StartsWith(s, "```json") then RemoveFences(SkipNewline(s[7..]))
    else if StartsWith(s, "```") then RemoveFences(SkipNewline(s[3..]))
    else if s == [] then []
    else [s[0]] + RemoveFences(s[1..])
  }

  /** The characters `String.prototype.trim` removes: white space and line
      terminators. */
  predicate IsJsWhitespace(c: char) {
    c == '\t' || c == '\n' || c == '\U{000B}' || c == '\U{000C}' || c == '\r' || c == ' '
    || c == '\U{00A0}' || c == '\U{1680}' || ('\U{2000}' <= c <= '\U{200A}')
    || c == '\U{2028}' || c == '\U{2029}' || c == '\U{202F}' || c == '\U{205F}'
    || c == '\U{3000}' || c == '\U{FEFF}'
  }

  /** Every character of `t` is white space. */
  predicate AllWhitespace(t: string) {
    forall i :: 0 <= i < |t| ==> IsJsWhitespace(t[i])
  }

  /** `trimStart`: the longest prefix of white space is dropped. */
  function TrimStart(s: string): (r: string)
    ensures |r| <= |s|
    ensures r == [] || !IsJsWhitespace(r[0])
    ensures r == s[|s| - |r|..]
    ensures forall i | 0 <= i < |s| - |r| :: IsJsWhitespace(s[i])
    decreases |s|
  {
    if s != [] && IsJsWhitespace(s[0]) then TrimStart(s[1..]) else s
  }

  /** `trimEnd`: the longest suffix of white space is dropped. */
  function TrimEnd(s: string): (r: string)
    ensures |r| <= |s|
    ensures r == [] || !IsJsWhitespace(r[|r| - 1])
    ensures r == s[..|r|]
    ensures forall i | |r| <= i < |s| :: IsJsWhitespace(s[i])
    decreases |s|
  {
    if s != [] && IsJsWhitespace(s[|s| - 1]) then TrimEnd(s[..|s| - 1]) else s
  }

  /** `r` is the part of `s` from position `n` on, and everything of `s` before
      and after that part is white space. */
  predicate WhitespaceAround(s: string, n: int, r: string) {
    && 0 <= n && n + |r| <= |s| && r == s[n..n + |r|]
    && (forall i | 0 <= i < n :: IsJsWhitespace(s[i]))
    && (forall i | n + |r| <= i < |s| :: IsJsWhitespace(s[i]))
  }

  /** `trim`: `s` with exactly its white-space ends removed, so the result is
      empty exactly when `s` is all white space. */
  function Trim(s: string): (r: string)
    ensures r == [] || (!IsJsWhitespace(r[0]) && !IsJsWhitespace(r[|r| - 1]))
    ensures WhitespaceAround(s, |s| - |TrimStart(s)|, r)
    ensures r == [] <==> AllWhitespace(s)
  {
    TrimFacts(s);
    TrimEnd(TrimStart(s))
  }

  /** Trim's contract, stated about the two trimming steps. */
  lemma TrimFacts(s: string)
    ensures var r := TrimEnd(TrimStart(s));
            r == [] || (!IsJsWhitespace(r[0]) && !IsJsWhitespace(r[|r| - 1]))
    ensures WhitespaceAround(s, |s| - |TrimStart(s)|, TrimEnd(TrimStart(s)))
    ensures TrimEnd(TrimStart(s)) == [] <==> AllWhitespace(s)
  {
    Cut(s, TrimStart(s), TrimEnd(TrimStart(s)));
  }

  /** The two trimming steps cut `s` at `|s| - |t|` and after `r`. */
  lemma Cut(s: string, t: string, r: string)
    requires |t| <= |s| && t == s[|s| - |t|..]
    requires forall i | 0 <= i < |s| - |t| :: IsJsWhitespace(s[i])
    requires |r| <= |t| && r == t[..|r|]
    requires forall i | |r| <= i < |t| :: IsJsWhitespace(t[i])
    requires r == [] || !IsJsWhitespace(r[0])
    requires r == [] || !IsJsWhitespace(r[|r| - 1])
    ensures r == [] || (!IsJsWhitespace(r[0]) && !IsJsWhitespace(r[|r| - 1]))
    ensures WhitespaceAround(s, |s| - |t|, r)
    ensures r == [] <==> AllWhitespace(s)
  {
    var n := |s| - |t|;
    SliceOfSuffix(s, n, |r|);
    forall i | n + |r| <= i < |s|
      ensures IsJsWhitespace(s[i])
    {
      assert s[i] == t[i - n];
    }
    if r != [] {
      assert r[0] == t[0] == s[n];
    }
  }

  /** A prefix of a suffix is an infix. */
  lemma SliceOfSuffix(s: string, n: nat, k: nat)
    requires n + k <= |s|
    ensures s[n..][..k] == s[n..n + k]
  {
  }

  /** The cleaning step applied to the model's reply. */
  function StripFences(text: string): string {
    Trim(RemoveFences(text))
  }

  predicate NoBacktick(s: string) {
    forall i :: 0 <= i < |s| ==> s[i] != '`'
  }

  /** No fence starts at a character other than a backtick. */
  lemma NoFenceAt(s: string)
    requires s != [] && s[0] != '`'
    ensures !StartsWith(s, "```json") && !StartsWith(s, "```")
  {
    if |s| >= 3 {
      assert s[..3][0] == s[0];
    }
    if |s| >= 7 {
      assert s[..7][0] == s[0];
    }
  }

  /** Removing the fences from a non-empty text that does not start with a
      backtick keeps its first character. */
  lemma RemoveFencesPlainHead(s: string)
    requires s != [] && s[0] != '`'
    ensures RemoveFences(s) == [s[0]] + RemoveFences(s[1..])
  {
    NoFenceAt(s);
  }

  /** Dropping the first character keeps a text free of backticks. */
  lemma NoBacktickTail(b: string)
    requires b != [] && NoBacktick(b)
    ensures NoBacktick(b[1..])
  {
    forall i | 0 <= i < |b| - 1
      ensures b[1..][i] != '`'
    {
      assert b[1..][i] == b[i + 1];
    }
  }

  /** The replace keeps a leading non-backtick character of `b + t` and goes on
      with the rest. */
  lemma PlainStep(b: string, t: string)
    requires b != [] && b[0] != '`'
    ensures RemoveFences(b + t) == [b[0]] + RemoveFences(b[1..] + t)
  {
    var s := b + t;
    assert s[0] == b[0] && s[1..] == b[1..] + t;
    RemoveFencesPlainHead(s);
  }

  /** Text without backticks passes through the replace unchanged, and the
      replace then continues on what follows. */
  lemma {:induction false} RemoveFencesKeepsPlainPrefix(b: string, t: string)
    requires NoBacktick(b)
    ensures RemoveFences(b + t) == b + RemoveFences(t)
    decreases |b|
  {
    if b == [] {
      assert b + t == t;
    } else {
      PlainStep(b, t);
      NoBacktickTail(b);
      RemoveFencesKeepsPlainPrefix(b[1..], t);
      ConsTail(b, RemoveFences(t));
    }
  }

  /** Putting the head back in front of the tail. */
  lemma ConsTail(b: string, x: string)
    requires b != []
    ensures [b[0]] + (b[1..] + x) == b + x
  {
    assert b == [b[0]] + b[1..];
  }

  /** Three backticks start at position `i` of `t`. */
  predicate MarkerAt(t: string, i: int) {
    0 <= i && i + 3 <= |t| && t[i] == '`' && t[i + 1] == '`' && t[i + 2] == '`'
  }

  /** No three consecutive backticks anywhere in `t`. */
  predicate NoMarker(t: string) {
    forall i | 0 <= i < |t| :: !MarkerAt(t, i)
  }

  /** Text without backticks comes through the replace unchanged. */
  lemma RemoveFencesPlainText(s: string)
    requires NoBacktick(s)
    ensures RemoveFences(s) == s
  {
    RemoveFencesKeepsPlainPrefix(s, []);
    assert s + [] == s;
  }

  /** The replace only ever starts its output with a backtick that the input
      starts with. */
  lemma RemoveFencesHead(t: string)
    ensures RemoveFences(t) != [] && RemoveFences(t)[0] == '`' ==> t != [] && t[0] == '`'
  {
    if t != [] && !StartsWith(t, "```json") && !StartsWith(t, "```") {
      assert RemoveFences(t)[0] == t[0];
    }
  }

  /** A kept first character and what the replace makes of the rest do not
      form three backticks: two more backticks in the output would have been
      two more in the input, and the three would have been a marker. */
  lemma NoMarkerAtHead(s: string)
    requires s != [] && !StartsWith(s, "```")
    ensures !MarkerAt([s[0]] + RemoveFences(s[1..]), 0)
  {
    var t := s[1..];
    RemoveFencesHead(t);
    if |t| >= 2 {
      assert s[..3] == [s[0], t[0], t[1]];
    }
    if t != [] && (|t| < 2 || t[1] != '`') {
      if |t| >= 3 {
        assert t[..3][1] == t[1];
      }
      if |t| >= 7 {
        assert t[..7][1] == t[1];
      }
      assert RemoveFences(t) == [t[0]] + RemoveFences(t[1..]);
      RemoveFencesHead(t[1..]);
    }
  }

  /** Putting a character in front of a text without fences makes none, unless
      it starts one. */
  lemma ConsNoMarker(c: char, rest: string)
    requires NoMarker(rest) && !MarkerAt([c] + rest, 0)
    ensures NoMarker([c] + rest)
  {
    var r := [c] + rest;
    forall i | 1 <= i < |r|
      ensures !MarkerAt(r, i)
    {
      assert !MarkerAt(rest, i - 1);
      if i + 3 <= |r| {
        assert r[i] == rest[i - 1] && r[i + 1] == rest[i] && r[i + 2] == rest[i + 1];
      }
    }
  }

  /** The global replace leaves no ```` ``` ````, so no marker of either kind
      survives. */
  lemma {:induction false} RemoveFencesLeavesNoMarker(s: string)
    ensures NoMarker(RemoveFences(s))
    decreases |s|
  {
    if StartsWith(s, "```json") {
      RemoveFencesLeavesNoMarker(SkipNewline(s[7..]));
    } else if StartsWith(s, "```") {
      RemoveFencesLeavesNoMarker(SkipNewline(s[3..]));
    } else if s != [] {
      RemoveFencesLeavesNoMarker(s[1..]);
      NoMarkerAtHead(s);
      ConsNoMarker(s[0], RemoveFences(s[1..]));
    }
  }

  /** The cleaned reply holds no fence: trimming keeps a part of the replaced
      text, which has none. */
  lemma StripFencesLeavesNoMarker(text: string)
    ensures NoMarker(StripFences(text))
  {
    RemoveFencesLeavesNoMarker(text);
    TrimKeepsNoMarker(RemoveFences(text));
  }

  /** Trimming a text without fences leaves none. */
  lemma TrimKeepsNoMarker(x: string)
    requires NoMarker(x)
    ensures NoMarker(Trim(x))
  {
    NoMarkerInfix(x, |x| - |TrimStart(x)|, Trim(x));
  }

  /** A part of a text without fences has none either. */
  lemma NoMarkerInfix(x: string, n: int, r: string)
    requires WhitespaceAround(x, n, r)
    requires NoMarker(x)
    ensures NoMarker(r)
  {
    forall i | 0 <= i < |r|
      ensures !MarkerAt(r, i)
    {
      assert !MarkerAt(x, n + i);
      if i + 3 <= |r| {
        assert r[i] == x[n + i] && r[i + 1] == x[n + i + 1] && r[i + 2] == x[n + i + 2];
      }
    }
  }

  /** Trimming ignores a trailing line feed. */
  lemma {:induction false} TrimEndNewline(b: string)
    ensures TrimEnd(b + "\n") == TrimEnd(b)
  {
    var s := b + "\n";
    assert s[..|s| - 1] == b;
  }

  /** Trimming twice is trimming once. */
  lemma {:induction false} TrimIdempotent(s: string)
    ensures Trim(Trim(s)) == Trim(s)
  {
    var r := Trim(s);
    if r != [] {
      assert TrimStart(r) == r;
      assert TrimEnd(r) == r;
    }
  }

  /** A fenced JSON block, as models commonly reply, is cleaned to its trimmed
      body (when the body has no backticks of its own). */
  lemma {:induction false} StripFencedBlock(body: string)
    requires NoBacktick(body)
    ensures StripFences("```json\n" + body + "\n```") == Trim(body)
  {
    var s := "```json\n" + body + "\n```";
    assert StartsWith(s, "```json");
    assert SkipNewline(s[7..]) == body + "\n```";
    assert NoBacktick(body + "\n");
    assert body + "\n```" == (body + "\n") + "```";
    RemoveFencesKeepsPlainPrefix(body + "\n", "```");
    assert StartsWith("```", "```") && !StartsWith("```", "```json");
    assert SkipNewline("```"[3..]) == [];
    assert RemoveFences("```") == [];
    assert RemoveFences(s) == body + "\n";
    TrimEndNewline(TrimStart(body));
    TrimIgnoresTrailingNewline(body);
  }

  /** A trailing line feed makes no difference to `trim`. */
  lemma TrimIgnoresTrailingNewline(body: string)
    ensures Trim(body + "\n") == Trim(body)
  {
    TrimBothIgnoresTrailingNewline(body);
  }

  /** The same, for the two steps `trim` is made of. */
  lemma {:induction false} TrimBothIgnoresTrailingNewline(body: string)
    ensures TrimEnd(TrimStart(body + "\n")) == TrimEnd(TrimStart(body))
    decreases |body|
  {
    if body != [] && IsJsWhitespace(body[0]) {
      assert (body + "\n")[1..] == body[1..] + "\n";
      TrimBothIgnoresTrailingNewline(body[1..]);
    } else if body == [] {
      assert TrimStart("\n") == [];
    } else {
      assert TrimStart(body + "\n") == body + "\n";
      TrimEndNewline(body);
    }
  }

  // ---------------------------------------------------------------------------
  // The analysis records.

  datatype Priority = High | Medium | Low

  datatype Severity = SeverityHigh | SeverityMedium | SeverityLow

  datatype PerformanceIssue = PerformanceIssue(metric: string, current: real, target: real, severity: Severity, description: string)

  datatype Recommendation = Recommendation(
    title: string,
    description: string,
    priority: Priority,
    expectedImpact: string,
    implementation: string,
    metrics: seq<string>)

  /** The fallback analysis. `score` and `grade` are copied from the request's
      JSON when truthy, so they are JSON values. */
  datatype FallbackAnalysis = FallbackAnalysis(
    score: Json,
    grade: Json,
    summary: string,
    issues: seq<PerformanceIssue>,
    recommendations: seq<Recommendation>,
    keyInsights: seq<string>)

  datatype AnalysisBody = FromModel(analysis: Json) | Fallback(fallback: FallbackAnalysis)

  datatype AnalyzeResponse =
    | Analyzed(body: AnalysisBody)
    | BadRequest(message: string)
    | ServerError(message: string, error: Option<string>)

  /** The structure check: a truthy `score` (0 is rejected) and an array of
      `recommendations`. A value that is not an object has neither. */
  predicate IsAcceptable(analysis: Json) {
    Truthy(Prop(analysis, "score"))
    && Prop(analysis, "recommendations").Some?
    && Prop(analysis, "recommendations").value.JArr?
  }

  const FallbackSummary: string :=
    "Performance analysis completed. Review the detailed metrics below for optimization opportunities."

  const FallbackRecommendations: seq<Recommendation> := [
    Recommendation("Optimize Images", "Compress and optimize images to reduce load times", High,
                   "Improved LCP and overall load time",
                   "Use modern image formats (WebP, AVIF) and appropriate sizing", ["LCP", "Load Time"]),
    Recommendation("Enable Caching", "Implement browser and server-side caching strategies", High,
                   "Faster repeat visits and reduced server load",
                   "Configure cache headers and use a CDN", ["TTFB", "Load Time"]),
    Recommendation("Minify Resources", "Minify CSS, JavaScript, and HTML files", Medium,
                   "Reduced file sizes and faster downloads",
                   "Use build tools to automatically minify files", ["Load Time", "FCP"])
  ]

  const FallbackInsights: seq<string> := [
    "Focus on Core Web Vitals for better user experience",
    "Regular performance monitoring is essential",
    "Mobile performance should be prioritized"
  ]

  /** `testResults.summary?.score`. */
  function SummaryField(testResults: Json, key: string): Option<Json> {
    OptProp(Prop(testResults, "summary"), key)
  }

  /** The fallback: the summary's score if truthy, else 70; its grade if truthy,
      else `'C'`; no issues; three fixed recommendations and insights. */
  function BuildFallback(testResults: Json): (f: FallbackAnalysis)
    ensures Truthy(SummaryField(testResults, "score")) ==> f.score == SummaryField(testResults, "score").value
    ensures !Truthy(SummaryField(testResults, "score")) ==> f.score == JNum(70.0)
    ensures Truthy(SummaryField(testResults, "grade")) ==> f.grade == SummaryField(testResults, "grade").value
    ensures !Truthy(SummaryField(testResults, "grade")) ==> f.grade == JStr("C")
    // the fallback's own score is never falsy
    ensures Truthy(Some(f.score)) && Truthy(Some(f.grade))
    ensures f.issues == []
    ensures |f.recommendations| == 3
    ensures f.recommendations[0].priority == High && f.recommendations[1].priority == High
    ensures f.recommendations[2].priority == Medium
    ensures |f.keyInsights| == 3
  {
    var score := SummaryField(testResults, "score");
    var grade := SummaryField(testResults, "grade");
    FallbackAnalysis(
      if Truthy(score) then score.value else JNum(70.0),
      if Truthy(grade) then grade.value else JStr("C"),
      FallbackSummary,
      [],
      FallbackRecommendations,
      FallbackInsights)
  }

  /** A real score of 0 in the summary is replaced by 70. */
  lemma ZeroScoreBecomesSeventy(testResults: Json)
    requires SummaryField(testResults, "score") == Some(JNum(0.0))
    ensures BuildFallback(testResults).score == JNum(70.0)
  {
  }

  /** The handler. `body` is what `request.json()` gave, `reply` the model's text
      (or what the model call threw), `parse` stands for `JSON.parse` (`None`
      when it throws), and `isDevelopment` says whether `NODE_ENV` is
      `development`. */
  function Analyze(body: Result<Json, Thrown>, reply: Result<string, Thrown>,
                   parse: string -> Option<Json>, isDevelopment: bool): (r: AnalyzeResponse)
    // an unreadable or null body and a failed model call are 500s; the message only in development
    ensures body.Failure? ==> r == ServerError("Failed to analyze test results", ExposedMessage(body.error, isDevelopment))
    ensures body == Success(JNull) ==> r.ServerError?
    // missing or falsy test results are a 400
    ensures body.Success? && body.value != JNull && !Truthy(Prop(body.value, "testResults")) ==>
              r == BadRequest("Test results are required")
    ensures body.Success? && body.value != JNull && Truthy(Prop(body.value, "testResults")) && reply.Failure? ==>
              r == ServerError("Failed to analyze test results", ExposedMessage(reply.error, isDevelopment))
    // a parsed reply is passed on exactly when it is well-formed; otherwise the fallback
    ensures r.Analyzed? ==> reply.Success? && body.Success? && Truthy(Prop(body.value, "testResults"))
    ensures r.Analyzed? && r.body.FromModel? ==>
              parse(StripFences(reply.value)) == Some(r.body.analysis) && IsAcceptable(r.body.analysis)
    ensures r.Analyzed? && r.body.Fallback? ==>
              (parse(StripFences(reply.value)).None? || !IsAcceptable(parse(StripFences(reply.value)).value))
              && r.body.fallback == BuildFallback(Prop(body.value, "testResults").value)
    ensures body.Success? && body.value != JNull && Truthy(Prop(body.value, "testResults")) && reply.Success? ==> r.Analyzed?
  {
    match body
    case Failure(e) => ServerError("Failed to analyze test results", ExposedMessage(e, isDevelopment))
    case Success(request) =>
      if request == JNull then
        ServerError("Failed to analyze test results", ExposedMessage(TypeError("testResults of null"), isDevelopment))
      else
        var testResults := Prop(request, "testResults");
        if !Truthy(testResults) then BadRequest("Test results are required")
        else match reply
          case Failure(e) => ServerError("Failed to analyze test results", ExposedMessage(e, isDevelopment))
          case Success(text) =>
            var cleaned := StripFences(text);
            var analysis := parse(cleaned);
            if analysis.Some? && IsAcceptable(analysis.value) then Analyzed(FromModel(analysis.value))
            else Analyzed(Fallback(BuildFallback(testResults.value)))
  }
}
