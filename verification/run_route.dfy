/** `POST /api/tests/run`: validates the submitted URL, records a PENDING test
    for the (optional) signed-in user, makes sure the job processor is running
    and answers with the new test id. */
module RunRoute {
  import opened Wrappers
  import opened Js
  import opened JobQueue
  import Logger

  /** The three JSON bodies the route answers with. */
  datatype SubmitResponse =
    | Queued(testId: string, message: string, estimatedTime: string)  // 200
    | BadRequest(message: string)                                       // 400
    | ServerError(message: string, error: Option<string>)               // 500

  const QueuedMessage := "Test queued successfully"
  const EstimatedTime := "2-5 minutes"
  const FailedToStart := "Failed to start test"
  const UrlRequired := "URL is required"
  const InvalidUrl := "Invalid URL format"

  /** The 500 answer for a thrown value; its message only reaches the client
      in development. */
  function Failed(e: Thrown, isDevelopment: bool): (r: SubmitResponse)
    ensures r.ServerError? && r.message == FailedToStart
    ensures r.error.Some? <==> isDevelopment && e.Error?
    ensures r.error.Some? ==> r.error.value == e.message
  {
    ServerError(FailedToStart, ExposedMessage(e, isDevelopment))
  }

  /** The candidate handed to the URL parser: an `https://` prefix is added
      unless the text already starts with `http`. */
  function WithScheme(url: string): (r: string)
    ensures StartsWith(url, "http") ==> r == url
    ensures !StartsWith(url, "http") ==> r == "https://" + url
  {
    if StartsWith(url, "http") then url else "https://" + url
  }

  /** The candidate always starts with `http`, so adding the scheme twice
      changes nothing. */
  lemma WithSchemeIdempotent(url: string)
    ensures StartsWith(WithScheme(url), "http")
    ensures WithScheme(WithScheme(url)) == WithScheme(url)
  {
    if !StartsWith(url, "http") {
      assert ("https://" + url)[..4] == "http";
    }
  }

  /** `session?.user?.id || null`: an empty id counts as no user. */
  function SessionUserId(sessionId: Option<string>): (r: Option<string>)
    ensures r.Some? <==> sessionId.Some? && sessionId.value != ""
    ensures r.Some? ==> r == sessionId
  {
    if sessionId.Some? && sessionId.value != "" then sessionId else None
  }

  /** Reading the request up to a normalized URL. `parseUrl` stands for
      `new URL(candidate).toString()`, `None` for a constructor that throws. */
  function ValidateSubmission(body: Result<Json, Thrown>, parseUrl: string -> Option<string>, isDevelopment: bool)
    : (r: Result<string, SubmitResponse>)
    // an unreadable body, or a `null` one that cannot be destructured, is a 500
    ensures body.Failure? ==> r == Failure(Failed(body.error, isDevelopment))
    ensures body == Success(JNull) ==> r.Failure? && r.error.ServerError?
    // a falsy `url` is a 400 naming the field
    ensures body.Success? && body.value != JNull && !Truthy(Prop(body.value, "url")) ==>
              r == Failure(BadRequest(UrlRequired))
    // a truthy non-string, or a string no parser accepts, is a 400 about the format
    ensures body.Success? && Truthy(Prop(body.value, "url")) && !Prop(body.value, "url").value.JStr? ==>
              r == Failure(BadRequest(InvalidUrl))
    ensures body.Success? && Prop(body.value, "url").Some? && Prop(body.value, "url").value.JStr?
            && Truthy(Prop(body.value, "url")) ==>
              r == match parseUrl(WithScheme(Prop(body.value, "url").value.s))
                   case None => Failure(BadRequest(InvalidUrl))
                   case Some(normalized) => Success(normalized)
    // only a parsed URL gets through
    ensures r.Success? ==> exists s :: Prop(body.value, "url") == Some(JStr(s)) && s != "" && parseUrl(WithScheme(s)) == Some(r.value)
  {
    match body
    case Failure(e) => Failure(Failed(e, isDevelopment))
    case Success(JNull) => Failure(Failed(TypeError("property 'url' of null"), isDevelopment))
    case Success(json) =>
      match Prop(json, "url")
      case None => Failure(BadRequest(UrlRequired))
      case Some(url) =>
        if !Truthy(Some(url)) then Failure(BadRequest(UrlRequired))
        else match url
          case JStr(s) =>
            (match parseUrl(WithScheme(s))
             case None => Failure(BadRequest(InvalidUrl))
             case Some(normalized) => Success(normalized))
          case _ => Failure(BadRequest(InvalidUrl))
  }

  /** What the handler cannot decide itself: the URL parser, the session
      lookup, the fresh id, the insert, the environment and the start clock. */
  datatype SubmitEnv = SubmitEnv(
    parseUrl: string -> Option<string>,
    session: Result<Option<string>, Thrown>,
    newId: string,
    insert: WriteOutcome,
    isDevelopment: bool,
    startedAt: int)

  /** The row the handler inserts, or the answer it gives before inserting. */
  function Admission(body: Result<Json, Thrown>, env: SubmitEnv, now: int): (r: Result<Test, SubmitResponse>)
    ensures ValidateSubmission(body, env.parseUrl, env.isDevelopment).Failure? ==>
              r == Failure(ValidateSubmission(body, env.parseUrl, env.isDevelopment).error)
    ensures ValidateSubmission(body, env.parseUrl, env.isDevelopment).Success? && env.session.Failure? ==>
              r == Failure(Failed(env.session.error, env.isDevelopment))
    ensures r.Success? ==>
              && env.session.Success?
              && r.value == NewTest(env.newId, SessionUserId(env.session.value),
                                    ValidateSubmission(body, env.parseUrl, env.isDevelopment).value, now)
              && r.value.status == Pending && WellFormed(r.value)
  {
    match ValidateSubmission(body, env.parseUrl, env.isDevelopment)
    case Failure(response) => Failure(response)
    case Success(normalized) =>
      match env.session
      case Failure(e) => Failure(Failed(e, env.isDevelopment))
      case Success(sessionId) => Success(NewTest(env.newId, SessionUserId(sessionId), normalized, now))
  }

  /** The insert and the processor start, once a row was admitted. */
  method Enqueue(slot: ProcessorSlot, row: Test, insert: WriteOutcome, isDevelopment: bool, w: World)
    returns (response: SubmitResponse, batch: seq<string>)
    requires slot.Valid() && slot.db.Valid() && AllWellFormed(slot.db.rows) && WellFormed(row)
    modifies slot, slot.db, slot.processor
    ensures slot.Valid() && slot.db.Valid() && AllWellFormed(slot.db.rows)
    // a failed insert (including a duplicate id) is a 500 and stores nothing
    ensures insert.WriteFailed? || row.id in old(slot.db.rows) ==>
              response == Failed(if insert.WriteFailed? then insert.thrown else DuplicateKey, isDevelopment)
              && batch == [] && slot.db.rows == old(slot.db.rows) && slot.processor == old(slot.processor)
              && (old(slot.processor) != null ==>
                    slot.processor.isProcessing == old(slot.processor.isProcessing)
                    && slot.processor.armedTimers == old(slot.processor.armedTimers))
    // otherwise the test is queued, the processor runs, and a pass runs if it was idle
    ensures insert.Written? && row.id !in old(slot.db.rows) ==>
              && response == Queued(row.id, QueuedMessage, EstimatedTime)
              && slot.processor != null && slot.processor.isProcessing
              && (old(slot.processor) != null ==> slot.processor == old(slot.processor))
              // Start arms one timer unless it was already running; a new processor starts with none
              && slot.processor.armedTimers == (if old(slot.processor) == null then 1
                                                else if old(slot.processor.isProcessing) then old(slot.processor.armedTimers)
                                                else old(slot.processor.armedTimers) + 1)
              && var inserted := old(slot.db.rows)[row.id := row];
                 if old(slot.processor != null && slot.processor.isProcessing)
                 then slot.db.rows == inserted && batch == []
                 else Pass(inserted, slot.db.rows, batch, w)
  {
    batch := [];
    var failure := slot.db.Insert(row, insert);
    if failure.Some? {
      response := Failed(failure.value, isDevelopment);
      return;
    }
    var p := slot.GetTestJobProcessor();
    batch := p.Start(w);
    response := Queued(row.id, QueuedMessage, EstimatedTime);
  }

  /** The handler, measured as `test-creation`. */
  method Submit(slot: ProcessorSlot, monitor: Logger.PerformanceMonitor, body: Result<Json, Thrown>, env: SubmitEnv, w: World)
    returns (response: SubmitResponse, batch: seq<string>)
    requires slot.Valid() && slot.db.Valid() && AllWellFormed(slot.db.rows)
    modifies slot, slot.db, slot.processor, monitor
    ensures slot.Valid() && slot.db.Valid() && AllWellFormed(slot.db.rows)
    // the measurement: the start time is recorded and then consumed
    ensures env.startedAt != 0 ==> monitor.startTimes == old(monitor.startTimes) - {"test-creation"}
    ensures env.startedAt == 0 ==> monitor.startTimes == old(monitor.startTimes)["test-creation" := 0]
    // rejected before inserting: nothing is stored and no processor is touched
    ensures Admission(body, env, w.now).Failure? ==>
              response == Admission(body, env, w.now).error && batch == []
              && slot.db.rows == old(slot.db.rows) && slot.processor == old(slot.processor)
              && (old(slot.processor) != null ==>
                    slot.processor.isProcessing == old(slot.processor.isProcessing)
                    && slot.processor.armedTimers == old(slot.processor.armedTimers))
    // a failed insert (including a duplicate id) is a 500 and stores nothing
    ensures Admission(body, env, w.now).Success? && (env.insert.WriteFailed? || env.newId in old(slot.db.rows)) ==>
              response == Failed(if env.insert.WriteFailed? then env.insert.thrown else DuplicateKey, env.isDevelopment)
              && batch == [] && slot.db.rows == old(slot.db.rows) && slot.processor == old(slot.processor)
              && (old(slot.processor) != null ==>
                    slot.processor.isProcessing == old(slot.processor.isProcessing)
                    && slot.processor.armedTimers == old(slot.processor.armedTimers))
    // otherwise the test is queued, the processor runs, and a pass runs if it was idle
    ensures Admission(body, env, w.now).Success? && env.insert.Written? && env.newId !in old(slot.db.rows) ==>
              && response == Queued(env.newId, QueuedMessage, EstimatedTime)
              && slot.processor != null && slot.processor.isProcessing
              && (old(slot.processor) != null ==> slot.processor == old(slot.processor))
              // Start arms one timer unless it was already running; a new processor starts with none
              && slot.processor.armedTimers == (if old(slot.processor) == null then 1
                                                else if old(slot.processor.isProcessing) then old(slot.processor.armedTimers)
                                                else old(slot.processor.armedTimers) + 1)
              && var inserted := old(slot.db.rows)[env.newId := Admission(body, env, w.now).value];
                 if old(slot.processor != null && slot.processor.isProcessing)
                 then slot.db.rows == inserted && batch == []
                 else Pass(inserted, slot.db.rows, batch, w)
  {
    monitor.Start("test-creation", env.startedAt);
    var admitted := Admission(body, env, w.now);
    if admitted.Failure? {
      response, batch := admitted.error, [];
    } else {
      response, batch := Enqueue(slot, admitted.value, env.insert, env.isDevelopment, w);
    }
    var _ := monitor.End("test-creation", w.now);
  }

  /** Submitting `example.com` anonymously stores a PENDING row for the
      normalized URL, with no user, and answers with the new id. */
  lemma AnonymousSubmission(parseUrl: string -> Option<string>, now: int)
    requires parseUrl("https://example.com") == Some("https://example.com/")
    ensures var env := SubmitEnv(parseUrl, Success(None), "abc", Written, false, now);
            var r := Admission(Success(JObj(map["url" := JStr("example.com")])), env, now);
            r.Success? && r.value.url == "https://example.com/" && r.value.userId.None? && r.value.status == Pending
  {
    assert "example.com"[..4] == "exam";
    assert "https://" + "example.com" == "https://example.com";
  }
}
