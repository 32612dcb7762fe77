/** The test-job lifecycle: the `tests` table, the background processor that
    moves rows from PENDING through RUNNING to COMPLETED or FAILED, and the
    module-level processor singleton.

    Timers and asynchrony are made explicit: a poll pass processes the selected
    batch one job after another, a pending `setTimeout` callback is counted in
    `armedTimers`, and `Tick` is such a callback firing. Every outcome the code
    cannot decide for itself (each database write, the PageSpeed response, the
    environment, the clock) comes in through a `World`. */
module JobQueue {
  import opened Wrappers
  import opened Js
  import PageSpeed

  // ---------------------------------------------------------------------------
  // The job record (the `tests` table).

  datatype Status = Pending | Running | Completed | Failed

  /** How far along the lifecycle a status is; COMPLETED and FAILED are both final. */
  function Stage(s: Status): nat {
    match s
    case Pending => 0
    case Running => 1
    case Completed => 2
    case Failed => 2
  }

  /** One row. Timestamps are clock readings in milliseconds. */
  datatype Test = Test(
    id: string,
    userId: Option<string>,
    url: string,
    status: Status,
    results: Option<string>,
    error: Option<string>,
    webpagetestId: Option<string>,
    createdAt: int,
    updatedAt: int,
    completedAt: Option<int>)

  /** The lifecycle invariant of a row: `results` and `completedAt` are set
      exactly when it is COMPLETED, `error` exactly when it is FAILED. */
  predicate WellFormed(t: Test) {
    && (t.results.Some? <==> t.status == Completed)
    && (t.completedAt.Some? <==> t.status == Completed)
    && (t.error.Some? <==> t.status == Failed)
  }

  predicate AllWellFormed(rows: map<string, Test>) {
    forall id | id in rows :: WellFormed(rows[id])
  }

  /** A freshly inserted row: the schema defaults leave `results`, `error`,
      `webpagetestId` and `completedAt` null. */
  function NewTest(id: string, userId: Option<string>, url: string, now: int): (t: Test)
    ensures t.id == id && t.userId == userId && t.url == url
    ensures t.status == Pending && WellFormed(t)
    ensures t.results.None? && t.error.None? && t.webpagetestId.None?
    ensures t.createdAt == now && t.updatedAt == now
  {
    Test(id, userId, url, Pending, None, None, None, now, now, None)
  }

  /** The three `set` clauses the processor writes. */
  datatype Patch = ToRunning | ToCompleted(results: string) | ToFailed(message: string)

  /** A row after one update: only the columns the patch names change. */
  function ApplyPatch(t: Test, p: Patch, now: int): (u: Test)
    ensures u.id == t.id && u.userId == t.userId && u.url == t.url
    ensures u.createdAt == t.createdAt && u.webpagetestId == t.webpagetestId && u.updatedAt == now
    ensures p.ToRunning? ==> u.status == Running && u.results == t.results && u.error == t.error && u.completedAt == t.completedAt
    ensures p.ToCompleted? ==> u.status == Completed && u.results == Some(p.results) && u.error == t.error && u.completedAt == Some(now)
    ensures p.ToFailed? ==> u.status == Failed && u.error == Some(p.message) && u.results == t.results && u.completedAt == t.completedAt
  {
    match p
    case ToRunning => t.(status := Running, updatedAt := now)
    case ToCompleted(results) => t.(status := Completed, results := Some(results), completedAt := Some(now), updatedAt := now)
    case ToFailed(message) => t.(status := Failed, error := Some(message), updatedAt := now)
  }

  /** What one database write did. */
  datatype WriteOutcome = Written | WriteFailed(thrown: Thrown)

  /** The table after one `update ... where id = id`: the patch reaches that
      row only, and nothing changes when the write fails or no row has the id. */
  function Patched(rows: map<string, Test>, id: string, p: Patch, now: int, outcome: WriteOutcome): (r: map<string, Test>)
    ensures r.Keys == rows.Keys
    ensures forall k | k in rows && k != id :: r[k] == rows[k]
    ensures outcome.WriteFailed? ==> r == rows
    ensures outcome.Written? && id in rows ==> r[id] == ApplyPatch(rows[id], p, now)
  {
    if outcome.Written? && id in rows then rows[id := ApplyPatch(rows[id], p, now)] else rows
  }

  /** The error a second insert of an existing primary key raises. */
  const DuplicateKey: Thrown := Error("Error", "duplicate key value violates unique constraint \"tests_pkey\"")

  function IdsWithStatus(rows: map<string, Test>, status: Status): set<string> {
    set id | id in rows && rows[id].status == status
  }

  function Min(a: nat, b: nat): nat {
    if a <= b then a else b
  }

  /** What a `select ... where status = s limit n` may return: distinct rows of
      that status, as many as there are up to the limit, in no particular order. */
  predicate IsSelection(rows: map<string, Test>, status: Status, limit: nat, ids: seq<string>) {
    && |ids| == Min(limit, |IdsWithStatus(rows, status)|)
    && (forall i | 0 <= i < |ids| :: ids[i] in rows && rows[ids[i]].status == status)
    && (forall i, j | 0 <= i < j < |ids| :: ids[i] != ids[j])
  }

  function Ids(tests: seq<Test>): (ids: seq<string>)
    ensures |ids| == |tests| && forall i | 0 <= i < |tests| :: ids[i] == tests[i].id
  {
    seq(|tests|, i requires 0 <= i < |tests| => tests[i].id)
  }

  /** The `tests` table. */
  class TestTable {
    var rows: map<string, Test>

    /** Rows are stored under their primary key. */
    ghost predicate Valid()
      reads this
    {
      forall id | id in rows :: rows[id].id == id
    }

    constructor()
      ensures Valid() && rows == map[]
    {
      rows := map[];
    }

    /** `insert(tests).values(row)`: fails on a duplicate key or when the write fails. */
    method Insert(row: Test, outcome: WriteOutcome) returns (failure: Option<Thrown>)
      requires Valid()
      modifies this
      ensures Valid()
      ensures outcome.WriteFailed? ==> failure == Some(outcome.thrown) && rows == old(rows)
      ensures outcome.Written? && row.id in old(rows) ==> failure == Some(DuplicateKey) && rows == old(rows)
      ensures outcome.Written? && row.id !in old(rows) ==> failure.None? && rows == old(rows)[row.id := row]
    {
      if outcome.WriteFailed? {
        return Some(outcome.thrown);
      }
      if row.id in rows {
        return Some(DuplicateKey);
      }
      rows := rows[row.id := row];
      failure := None;
    }

    /** `update(tests).set(patch).where(eq(tests.id, id))`: touches at most the
        one row, and nothing when the write fails or no row has that id. */
    method Update(id: string, patch: Patch, now: int, outcome: WriteOutcome) returns (failure: Option<Thrown>)
      requires Valid()
      modifies this
      ensures Valid()
      ensures failure == if outcome.WriteFailed? then Some(outcome.thrown) else None
      ensures rows == Patched(old(rows), id, patch, now, outcome)
    {
      if outcome.WriteFailed? {
        return Some(outcome.thrown);
      }
      if id in rows {
        rows := rows[id := ApplyPatch(rows[id], patch, now)];
      }
      failure := None;
    }

    /** `select().from(tests).where(eq(tests.status, status)).limit(limit)`,
        which fails with `failure` when that is given. The query has no
        `orderBy`, so which rows come back, and in which order, is left open. */
    method SelectWhereStatus(status: Status, limit: nat, failure: Option<Thrown>) returns (r: Result<seq<Test>, Thrown>)
      requires Valid()
      ensures failure.Some? ==> r == Failure(failure.value)
      ensures failure.None? ==> r.Success? && IsSelection(rows, status, limit, Ids(r.value))
      ensures r.Success? ==> forall i | 0 <= i < |r.value| :: r.value[i].id in rows && rows[r.value[i].id] == r.value[i]
    {
      if failure.Some? {
        return Failure(failure.value);
      }
      var remaining := IdsWithStatus(rows, status);
      var picked: seq<Test> := [];
      while |picked| < limit && remaining != {}
        invariant remaining <= IdsWithStatus(rows, status)
        invariant |picked| <= limit
        invariant |remaining| + |picked| == |IdsWithStatus(rows, status)|
        invariant forall i | 0 <= i < |picked| ::
                    picked[i].id in rows && rows[picked[i].id] == picked[i]
                    && picked[i].status == status && picked[i].id !in remaining
        invariant forall i, j | 0 <= i < j < |picked| :: picked[i].id != picked[j].id
        decreases remaining
      {
        var id :| id in remaining;
        picked := picked + [rows[id]];
        remaining := remaining - {id};
      }
      r := Success(picked);
    }
  }

  // ---------------------------------------------------------------------------
  // Processing one job, as a function of the outcomes.

  /** What happened to one job's external calls: the RUNNING write, the
      PageSpeed request, the COMPLETED write and the FAILED write. */
  datatype Attempt = Attempt(
    runningWrite: WriteOutcome,
    fetched: Result<PageSpeed.HttpResponse, Thrown>,
    completedWrite: WriteOutcome,
    failedWrite: WriteOutcome)

  /** Everything a poll pass cannot decide for itself: whether the select
      fails, each job's outcomes, the two API-key variables, `JSON.stringify`
      of the results, and the clock. */
  datatype World = World(
    selectFailure: Option<Thrown>,
    attempts: string -> Attempt,
    pagespeedKey: Option<string>,
    googleKey: Option<string>,
    serialize: PageSpeed.PageSpeedResults -> string,
    now: nat)

  /** `error instanceof Error ? error.message : 'Unknown error'`. */
  function ErrorMessage(e: Thrown): (m: string)
    ensures e.Error? ==> m == e.message
    ensures e.NonError? ==> m == "Unknown error"
  {
    if e.Error? then e.message else "Unknown error"
  }

  /** Creating the client and analysing `url` on the mobile strategy. */
  function Analysis(url: string, a: Attempt, w: World): Result<PageSpeed.PageSpeedResults, Thrown> {
    match PageSpeed.GetPageSpeedClient(w.pagespeedKey, w.googleKey)
    case Failure(e) => Failure(e)
    case Success(_) => PageSpeed.Analyze(url, a.fetched, NatToString(w.now))
  }

  /** The first value thrown while processing a job, if any: by the RUNNING
      write, by client creation or analysis, or by the COMPLETED write. */
  function FirstFailure(url: string, a: Attempt, w: World): Option<Thrown> {
    if a.runningWrite.WriteFailed? then Some(a.runningWrite.thrown)
    else if Analysis(url, a, w).Failure? then Some(Analysis(url, a, w).error)
    else if a.completedWrite.WriteFailed? then Some(a.completedWrite.thrown)
    else None
  }

  /** The row after `processTest`, given the row it started from. */
  function FinalRow(t: Test, url: string, a: Attempt, w: World): (r: Test)
    // only status, results, error and the timestamps change
    ensures r.id == t.id && r.userId == t.userId && r.url == t.url && r.createdAt == t.createdAt
    // COMPLETED exactly when nothing failed, holding the serialized results
    ensures FirstFailure(url, a, w).None? ==>
              r.status == Completed && r.results == Some(w.serialize(Analysis(url, a, w).value))
              && r.error == t.error && r.completedAt == Some(w.now)
    // any failure leads to FAILED with its message, unless that write fails too
    ensures FirstFailure(url, a, w).Some? && a.failedWrite.Written? ==>
              r.status == Failed && r.error == Some(ErrorMessage(FirstFailure(url, a, w).value)) && r.results == t.results
    // a failed FAILED write leaves the last persisted state
    ensures FirstFailure(url, a, w).Some? && a.failedWrite.WriteFailed? ==>
              r == (if a.runningWrite.Written? then ApplyPatch(t, ToRunning, w.now) else t)
    // from PENDING the status only moves forward, and the row stays well-formed
    ensures t.status == Pending ==> (r.status == Completed <==> FirstFailure(url, a, w).None?)
    ensures t.status == Pending ==> (r.status == Failed <==> FirstFailure(url, a, w).Some? && a.failedWrite.Written?)
    ensures t.status == Pending && WellFormed(t) ==> WellFormed(r)
    ensures t.status == Pending ==> (r.status == Pending <==> a.runningWrite.WriteFailed? && a.failedWrite.WriteFailed?)
  {
    var failure := FirstFailure(url, a, w);
    var started := if a.runningWrite.Written? then ApplyPatch(t, ToRunning, w.now) else t;
    if failure.None? then ApplyPatch(started, ToCompleted(w.serialize(Analysis(url, a, w).value)), w.now)
    else if a.failedWrite.Written? then ApplyPatch(started, ToFailed(ErrorMessage(failure.value)), w.now)
    else started
  }

  /** The table after `processTest(id, url)`: only that row changes. */
  function Processed(rows: map<string, Test>, id: string, url: string, w: World): map<string, Test> {
    if id in rows then rows[id := FinalRow(rows[id], url, w.attempts(id), w)] else rows
  }

  /** A job that threw: the RUNNING write, then the FAILED write with the first
      failure's message, give the processed table. */
  lemma FailedJob(rows: map<string, Test>, id: string, url: string, w: World)
    requires FirstFailure(url, w.attempts(id), w).Some?
    ensures var a := w.attempts(id);
            Patched(Patched(rows, id, ToRunning, w.now, a.runningWrite),
                    id, ToFailed(ErrorMessage(FirstFailure(url, a, w).value)), w.now, a.failedWrite)
            == Processed(rows, id, url, w)
  {
  }

  /** A job that succeeded: the RUNNING write, then the COMPLETED write, give
      the processed table. */
  lemma CompletedJob(rows: map<string, Test>, id: string, url: string, w: World)
    requires FirstFailure(url, w.attempts(id), w).None?
    ensures var a := w.attempts(id);
            Patched(Patched(rows, id, ToRunning, w.now, a.runningWrite),
                    id, ToCompleted(w.serialize(Analysis(url, a, w).value)), w.now, a.completedWrite)
            == Processed(rows, id, url, w)
  {
  }

  /** The table after a pass over `batch`: each selected row is processed with
      its own outcomes; every other row is untouched. */
  function AfterBatch(rows: map<string, Test>, batch: seq<string>, w: World): (r: map<string, Test>)
    ensures r.Keys == rows.Keys
    ensures forall id | id in rows && id !in batch :: r[id] == rows[id]
  {
    map id | id in rows :: if id in batch then FinalRow(rows[id], rows[id].url, w.attempts(id), w) else rows[id]
  }

  /** Processing one more row extends the pass by that row. */
  lemma AfterBatchStep(rows: map<string, Test>, batch: seq<string>, id: string, w: World)
    requires id in rows && id !in batch
    ensures Processed(AfterBatch(rows, batch, w), id, rows[id].url, w) == AfterBatch(rows, batch + [id], w)
  {
    var lhs := Processed(AfterBatch(rows, batch, w), id, rows[id].url, w);
    var rhs := AfterBatch(rows, batch + [id], w);
    assert lhs.Keys == rhs.Keys;
    forall k | k in lhs.Keys
      ensures lhs[k] == rhs[k]
    {
      assert k in batch + [id] <==> k in batch || k == id;
    }
  }

  /** One poll pass, as the processor performs it: a failed select processes
      nothing; otherwise a selection of PENDING rows is processed. */
  ghost predicate Pass(before: map<string, Test>, after: map<string, Test>, batch: seq<string>, w: World) {
    && (w.selectFailure.Some? ==> batch == [])
    && (w.selectFailure.None? ==> IsSelection(before, Pending, 5, batch))
    && after == AfterBatch(before, batch, w)
  }

  /** A pass keeps every row well-formed, never moves a status backwards, and
      never touches a COMPLETED or FAILED row: there is no retry. */
  lemma {:induction false} PassPreservesLifecycle(before: map<string, Test>, after: map<string, Test>, batch: seq<string>, w: World)
    requires AllWellFormed(before)
    requires forall i | 0 <= i < |batch| :: batch[i] in before && before[batch[i]].status == Pending
    requires after == AfterBatch(before, batch, w)
    ensures AllWellFormed(after)
    ensures after.Keys == before.Keys
    ensures forall id | id in before :: Stage(before[id].status) <= Stage(after[id].status)
    ensures forall id | id in before && Stage(before[id].status) == 2 :: after[id] == before[id]
  {
    forall id | id in before
      ensures WellFormed(after[id]) && Stage(before[id].status) <= Stage(after[id].status)
      ensures Stage(before[id].status) == 2 ==> after[id] == before[id]
    {
      if id in batch {
        var i :| 0 <= i < |batch| && batch[i] == id;
        assert before[id].status == Pending;
      }
    }
  }

  /** Only a row whose RUNNING and FAILED writes both failed is still PENDING
      after being processed, and so is selected again by a later pass. */
  lemma StaysPendingOnlyWhenBothWritesFail(before: map<string, Test>, batch: seq<string>, w: World, id: string)
    requires id in batch && id in before && before[id].status == Pending
    ensures AfterBatch(before, batch, w)[id].status == Pending <==>
              w.attempts(id).runningWrite.WriteFailed? && w.attempts(id).failedWrite.WriteFailed?
  {
  }

  /** A job whose PageSpeed request answers 403 ends FAILED with the status
      text in its error and no results. */
  lemma ForbiddenResponseFails(t: Test, w: World, body: Result<Option<PageSpeed.Payload>, Thrown>)
    requires t.status == Pending && WellFormed(t)
    requires w.pagespeedKey == Some("key")
    requires w.attempts(t.id) == Attempt(Written, Success(PageSpeed.HttpResponse(false, "Forbidden", body)), Written, Written)
    ensures FinalRow(t, t.url, w.attempts(t.id), w).status == Failed
    ensures FinalRow(t, t.url, w.attempts(t.id), w).error == Some("PageSpeed Insights API error: Forbidden")
    ensures FinalRow(t, t.url, w.attempts(t.id), w).results.None?
  {
    var thrown := Error("Error", "PageSpeed Insights API error: Forbidden");
    assert "PageSpeed Insights API error: " + "Forbidden" == thrown.message;
    assert Analysis(t.url, w.attempts(t.id), w) == Failure(thrown);
    assert FirstFailure(t.url, w.attempts(t.id), w) == Some(thrown);
  }

  /** A RUNNING write that fails sends the row from PENDING straight to FAILED. */
  lemma PendingStraightToFailed(t: Test, a: Attempt, w: World, dbError: Thrown)
    requires t.status == Pending && a.runningWrite == WriteFailed(dbError) && a.failedWrite.Written?
    ensures FinalRow(t, t.url, a, w).status == Failed
    ensures FinalRow(t, t.url, a, w).error == Some(ErrorMessage(dbError))
  {
  }

  // ---------------------------------------------------------------------------
  // The processor.

  class TestJobProcessor {
    var isProcessing: bool
    /** Callbacks scheduled with `setTimeout` that have not fired yet. */
    var armedTimers: nat
    const pollInterval: nat := 10000
    /** Declared in queue.ts and never read: there is no retry. */
    const maxRetries: nat := 3
    const db: TestTable

    ghost predicate Valid()
      reads this, db
    {
      db.Valid() && AllWellFormed(db.rows)
    }

    constructor(db: TestTable)
      ensures this.db == db && !isProcessing && armedTimers == 0
    {
      this.db := db;
      isProcessing := false;
      armedTimers := 0;
    }

    /** `start`: a no-op while processing; otherwise marks the processor as
        processing, runs one pass at once and arms the poll timer. */
    method Start(w: World) returns (batch: seq<string>)
      requires Valid()
      modifies this, db
      ensures Valid() && isProcessing
      ensures old(isProcessing) ==> armedTimers == old(armedTimers) && db.rows == old(db.rows) && batch == []
      ensures !old(isProcessing) ==> armedTimers == old(armedTimers) + 1 && Pass(old(db.rows), db.rows, batch, w)
    {
      if isProcessing {
        return [];
      }
      isProcessing := true;
      batch := ProcessPendingTests(w);
      SchedulePollForPendingTests();
    }

    /** `stop`: clears the flag. A timer already armed is not cancelled. */
    method Stop()
      modifies this
      ensures !isProcessing && armedTimers == old(armedTimers)
    {
      isProcessing := false;
    }

    /** `schedulePollForPendingTests`: arms one timer, but only while processing. */
    method SchedulePollForPendingTests()
      modifies this
      ensures isProcessing == old(isProcessing)
      ensures armedTimers == old(armedTimers) + (if isProcessing then 1 else 0)
    {
      if !isProcessing {
        return;
      }
      armedTimers := armedTimers + 1;
    }

    /** An armed timer fires: a pass runs (even after `stop`), and the timer is
        re-armed only while processing; errors in the pass never prevent that. */
    method Tick(w: World) returns (batch: seq<string>)
      requires Valid() && armedTimers > 0
      modifies this, db
      ensures Valid() && isProcessing == old(isProcessing)
      ensures armedTimers == old(armedTimers) - 1 + (if isProcessing then 1 else 0)
      ensures Pass(old(db.rows), db.rows, batch, w)
    {
      armedTimers := armedTimers - 1;
      batch := ProcessPendingTests(w);
      SchedulePollForPendingTests();
    }

    /** `processPendingTests`: selects up to 5 PENDING rows and processes each;
        a failed select is logged and processes nothing. */
    method ProcessPendingTests(w: World) returns (batch: seq<string>)
      requires Valid()
      modifies db
      ensures Valid()
      ensures Pass(old(db.rows), db.rows, batch, w)
    {
      var selected := db.SelectWhereStatus(Pending, 5, w.selectFailure);
      if selected.Failure? {
        return [];
      }
      var tests := selected.value;
      ghost var before := db.rows;
      batch := [];
      for i := 0 to |tests|
        invariant |batch| == i && forall k | 0 <= k < i :: batch[k] == tests[k].id
        invariant db.Valid()
        invariant db.rows == AfterBatch(before, batch, w)
      {
        var id := tests[i].id;
        assert id !in batch;
        assert id in before && before[id] == tests[i];
        ProcessTest(id, tests[i].url, w);
        AfterBatchStep(before, batch, id, w);
        batch := batch + [id];
      }
      assert batch == Ids(tests);
    }

    /** `processTest`: RUNNING, then analysis, then the results; any throw on
        the way marks the job as failed. */
    method ProcessTest(testId: string, url: string, w: World)
      requires db.Valid()
      modifies db
      ensures db.Valid()
      ensures db.rows == Processed(old(db.rows), testId, url, w)
    {
      ghost var before := db.rows;
      var a := w.attempts(testId);
      var failure := db.Update(testId, ToRunning, w.now, a.runningWrite);
      if failure.Some? {
        assert FirstFailure(url, a, w) == failure;
        MarkTestAsFailed(testId, failure.value, a.failedWrite, w.now);
        FailedJob(before, testId, url, w);
        return;
      }
      var client := PageSpeed.GetPageSpeedClient(w.pagespeedKey, w.googleKey);
      if client.Failure? {
        assert FirstFailure(url, a, w) == Some(client.error);
        MarkTestAsFailed(testId, client.error, a.failedWrite, w.now);
        FailedJob(before, testId, url, w);
        return;
      }
      var results := PageSpeed.Analyze(url, a.fetched, NatToString(w.now));
      assert Analysis(url, a, w) == results;
      if results.Failure? {
        assert FirstFailure(url, a, w) == Some(results.error);
        MarkTestAsFailed(testId, results.error, a.failedWrite, w.now);
        FailedJob(before, testId, url, w);
        return;
      }
      SaveTestResults(testId, w.serialize(results.value), a, w.now);
      if a.completedWrite.Written? {
        assert FirstFailure(url, a, w).None?;
        CompletedJob(before, testId, url, w);
      } else {
        assert FirstFailure(url, a, w) == Some(a.completedWrite.thrown);
        FailedJob(before, testId, url, w);
      }
    }

    /** `saveTestResults`: the COMPLETED write; its failure marks the job as failed. */
    method SaveTestResults(testId: string, results: string, a: Attempt, now: int)
      requires db.Valid()
      modifies db
      ensures db.Valid()
      ensures a.completedWrite.Written? ==> db.rows == Patched(old(db.rows), testId, ToCompleted(results), now, Written)
      ensures a.completedWrite.WriteFailed? ==>
                db.rows == Patched(old(db.rows), testId, ToFailed(ErrorMessage(a.completedWrite.thrown)), now, a.failedWrite)
    {
      var failure := db.Update(testId, ToCompleted(results), now, a.completedWrite);
      if failure.Some? {
        MarkTestAsFailed(testId, failure.value, a.failedWrite, now);
      }
    }

    /** `markTestAsFailed`: the FAILED write; its own failure is swallowed. */
    method MarkTestAsFailed(testId: string, error: Thrown, outcome: WriteOutcome, now: int)
      requires db.Valid()
      modifies db
      ensures db.Valid()
      ensures db.rows == Patched(old(db.rows), testId, ToFailed(ErrorMessage(error)), now, outcome)
    {
      var _ := db.Update(testId, ToFailed(ErrorMessage(error)), now, outcome);
    }

    /** At most one poll chain, and only while processing. */
    ghost predicate SinglePollLoop()
      reads this
    {
      armedTimers == if isProcessing then 1 else 0
    }

    /** `stop` as evidently intended: it also cancels the armed timer
        (`clearTimeout`). */
    method StopAndClearTimer()
      modifies this
      ensures !isProcessing && armedTimers == 0 && SinglePollLoop()
    {
      isProcessing := false;
      armedTimers := 0;
    }
  }

  /** `start`, `Tick` and the corrected stop keep a single poll chain. */
  method StartKeepsSinglePollLoop(p: TestJobProcessor, w: World)
    requires p.Valid() && p.SinglePollLoop()
    modifies p, p.db
    ensures p.SinglePollLoop()
  {
    var _ := p.Start(w);
  }

  method TickKeepsSinglePollLoop(p: TestJobProcessor, w: World)
    requires p.Valid() && p.SinglePollLoop() && p.armedTimers > 0
    modifies p, p.db
    ensures p.SinglePollLoop()
  {
    var _ := p.Tick(w);
  }

  /** As written: `start`, `stop` and `start` again before the armed timer
      fires leave two armed timers, that is two poll chains. */
  method RestartBeforeTimerFires(w1: World, w2: World) returns (armed: nat)
    ensures armed == 2
  {
    var table := new TestTable();
    var p := new TestJobProcessor(table);
    var _ := p.Start(w1);
    p.Stop();
    var _ := p.Start(w2);
    armed := p.armedTimers;
  }

  /** With the corrected stop the same sequence leaves one. */
  method RestartWithClearedTimer(w1: World, w2: World) returns (armed: nat)
    ensures armed == 1
  {
    var table := new TestTable();
    var p := new TestJobProcessor(table);
    var _ := p.Start(w1);
    p.StopAndClearTimer();
    var _ := p.Start(w2);
    armed := p.armedTimers;
  }

  // ---------------------------------------------------------------------------
  // The singleton accessor.

  /** The module-level `processor` variable, next to the `db` it works on. */
  class ProcessorSlot {
    const db: TestTable
    var processor: TestJobProcessor?

    ghost predicate Valid()
      reads this
    {
      processor != null ==> processor.db == db
    }

    constructor(db: TestTable)
      ensures this.db == db && processor == null && Valid()
    {
      this.db := db;
      processor := null;
    }

    /** `getTestJobProcessor`: creates the processor on first use and returns
        the same one afterwards. */
    method GetTestJobProcessor() returns (p: TestJobProcessor)
      requires Valid()
      modifies this
      ensures Valid() && processor == p && p.db == db
      ensures old(processor) != null ==> p == old(processor)
      ensures old(processor) == null ==> fresh(p) && !p.isProcessing && p.armedTimers == 0
    {
      if processor == null {
        processor := new TestJobProcessor(db);
      }
      p := processor;
    }
  }

  /** The processor starts when the module loads only in production or when
      `AUTO_START_PROCESSOR` is exactly "true". */
  predicate ShouldAutoStart(nodeEnv: Option<string>, autoStartProcessor: Option<string>) {
    nodeEnv == Some("production") || autoStartProcessor == Some("true")
  }

  /** Module load: fetches the singleton and starts it when `ShouldAutoStart`. */
  method AutoStart(slot: ProcessorSlot, nodeEnv: Option<string>, autoStartProcessor: Option<string>, w: World)
    returns (batch: seq<string>)
    requires slot.Valid() && slot.db.Valid() && AllWellFormed(slot.db.rows) && slot.processor == null
    modifies slot, slot.db
    ensures slot.Valid() && slot.db.Valid() && AllWellFormed(slot.db.rows)
    ensures !ShouldAutoStart(nodeEnv, autoStartProcessor) ==> slot.processor == null && batch == [] && slot.db.rows == old(slot.db.rows)
    ensures ShouldAutoStart(nodeEnv, autoStartProcessor) ==>
              slot.processor != null && slot.processor.isProcessing && slot.processor.armedTimers == 1
              && Pass(old(slot.db.rows), slot.db.rows, batch, w)
  {
    if !ShouldAutoStart(nodeEnv, autoStartProcessor) {
      return [];
    }
    var p := slot.GetTestJobProcessor();
    batch := p.Start(w);
  }
}
