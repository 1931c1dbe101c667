/** Agent runs as rows of a database: creating a run, ingesting a review case, resuming a run. */
module RunLifecycle {
  import opened Values
  import opened GraphEngine

  // ----- tables

  datatype RunStatus = RunCompleted | NeedsReview | AwaitingReview | RunRejected | OtherStatus(name: string)

  datatype RunRow = RunRow(
    tenant: string, threadId: string, status: RunStatus, requiresReview: bool, output: map<string, Value>)

  datatype EventRow = EventRow(runId: string, sequence: int, kind: EventType, node: string, tenant: string)

  datatype CaseStatus = CaseOpen | CaseResolved | CaseRejected

  /** `runId` is the foreign key; `payloadRunId` the copy kept in the payload, all that older rows have. */
  datatype CaseRow = CaseRow(
    tenant: string, status: CaseStatus, runId: Option<string>, payloadRunId: Option<string>,
    resolvedBy: Option<string>, note: Option<string>)

  datatype ThreadStatus = ThreadActive | ThreadAwaitingReview | ThreadRejected

  datatype ThreadRow = ThreadRow(tenant: string, status: ThreadStatus, pending: map<string, Value>)

  datatype Db = Db(
    runs: map<string, RunRow>, events: seq<EventRow>, cases: map<string, CaseRow>, threads: map<string, ThreadRow>)

  const EMPTY := Db(map[], [], map[], map[])

  predicate InReview(status: RunStatus) {
    status == NeedsReview || status == AwaitingReview
  }

  // ----- the event table of one run

  ghost function RowsOf(events: seq<EventRow>, runId: string): seq<EventRow> {
    if events == [] then []
    else
      var last := events[|events| - 1];
      RowsOf(events[..|events| - 1], runId) + (if last.runId == runId then [last] else [])
  }

  lemma {:induction false} RowsOfConcat(a: seq<EventRow>, b: seq<EventRow>, runId: string)
    ensures RowsOf(a + b, runId) == RowsOf(a, runId) + RowsOf(b, runId)
  {
    if b == [] {
      assert a + b == a;
    } else {
      assert (a + b)[..|a + b| - 1] == a + b[..|b| - 1];
      RowsOfConcat(a, b[..|b| - 1], runId);
    }
  }

  lemma {:induction false} RowsOfOwn(events: seq<EventRow>, runId: string)
    requires forall i :: 0 <= i < |events| ==> events[i].runId == runId
    ensures RowsOf(events, runId) == events
  {
    if events != [] {
      RowsOfOwn(events[..|events| - 1], runId);
      assert events == events[..|events| - 1] + [events[|events| - 1]];
    }
  }

  lemma {:induction false} RowsOfOthers(events: seq<EventRow>, runId: string)
    requires forall i :: 0 <= i < |events| ==> events[i].runId != runId
    ensures RowsOf(events, runId) == []
  {
    if events != [] {
      RowsOfOthers(events[..|events| - 1], runId);
    }
  }

  /** The largest sequence number of the run's rows, if it has any. */
  ghost predicate IsLargest(events: seq<EventRow>, runId: string, r: Option<int>) {
    match r
    case None => forall i :: 0 <= i < |events| ==> events[i].runId != runId
    case Some(m) =>
      (exists i :: 0 <= i < |events| && events[i].runId == runId && events[i].sequence == m) &&
      (forall i :: 0 <= i < |events| && events[i].runId == runId ==> events[i].sequence <= m)
  }

  /** `_next_event_sequence`: MAX(sequence) + 1 over the rows of the run, 0 if there are none. */
  method NextEventSequence(events: seq<EventRow>, runId: string) returns (next: int)
    ensures exists r :: IsLargest(events, runId, r) && next == (if r.Some? then r.value + 1 else 0)
  {
    var largest: Option<int> := None;
    for i := 0 to |events|
      invariant IsLargest(events[..i], runId, largest)
    {
      var e := events[i];
      assert events[..i + 1] == events[..i] + [e];
      if e.runId == runId && (largest.None? || e.sequence > largest.value) {
        largest := Some(e.sequence);
        assert events[..i + 1][i] == e;
      } else if largest.Some? {
        var j :| 0 <= j < i && events[..i][j].runId == runId && events[..i][j].sequence == largest.value;
        assert events[..i + 1][j] == events[..i][j];
      }
    }
    assert events[..|events|] == events;
    next := if largest.Some? then largest.value + 1 else 0;
  }

  ghost predicate NumberedRows(rows: seq<EventRow>) {
    forall i :: 0 <= i < |rows| ==> rows[i].sequence == i
  }

  lemma {:induction false} RowsAreMembers(events: seq<EventRow>, runId: string)
    ensures forall i :: 0 <= i < |RowsOf(events, runId)| ==>
            RowsOf(events, runId)[i] in events && RowsOf(events, runId)[i].runId == runId
    ensures forall i :: 0 <= i < |events| && events[i].runId == runId ==> events[i] in RowsOf(events, runId)
  {
    if events != [] {
      RowsAreMembers(events[..|events| - 1], runId);
      assert events == events[..|events| - 1] + [events[|events| - 1]];
    }
  }

  /** On rows numbered 0, 1, 2, ... the next number is their count. */
  lemma NextIsCount(events: seq<EventRow>, runId: string, r: Option<int>)
    requires NumberedRows(RowsOf(events, runId)) && IsLargest(events, runId, r)
    ensures |RowsOf(events, runId)| == if r.Some? then r.value + 1 else 0
  {
    var rows := RowsOf(events, runId);
    RowsAreMembers(events, runId);
    if r.Some? {
      var i :| 0 <= i < |events| && events[i].runId == runId && events[i].sequence == r.value;
      var k :| 0 <= k < |rows| && rows[k] == events[i];
      var j :| 0 <= j < |events| && events[j] == rows[|rows| - 1];
    } else {
      RowsOfOthers(events, runId);
    }
  }

  // ----- creating a run

  datatype AgentResult = AgentResult(
    status: RunStatus, confidence: real, requiresReview: bool, output: map<string, Value>,
    events: seq<Event>, interrupt: Option<map<string, Value>>)

  /** How far the request gets: the handler commits the run, then the case, then the run's review status. */
  datatype Progress = StopsAfterRun | StopsAfterCase | Finishes

  /** The ids are fresh UUIDs. `ruleDecision` is the decision of the expense rules, if a ticket came along. */
  datatype CreateRequest = CreateRequest(
    runId: string, threadId: string, caseId: string, tenant: string, result: AgentResult,
    ruleDecision: Option<string>, progress: Progress)

  function Blocked(ruleDecision: Option<string>): bool {
    ruleDecision.Some? && ruleDecision.value != "approved"
  }

  function ReviewRequired(q: CreateRequest): bool {
    q.result.requiresReview || Blocked(q.ruleDecision)
  }

  function ShouldCreateReviewCase(confidence: real, requiresReview: bool, ruleDecision: Option<string>): bool {
    requiresReview || confidence < 0.6 || Blocked(ruleDecision)
  }

  function FirstStatus(q: CreateRequest): RunStatus {
    if ReviewRequired(q) && q.result.status == RunCompleted then NeedsReview else q.result.status
  }

  function EventRowOf(q: CreateRequest, e: Event): EventRow {
    EventRow(q.runId, e.sequence, e.kind, e.node, q.tenant)
  }

  ghost function EventRows(q: CreateRequest): seq<EventRow> {
    seq(|q.result.events|, i requires 0 <= i < |q.result.events| => EventRowOf(q, q.result.events[i]))
  }

  function ThreadAfterCreate(threads: map<string, ThreadRow>, q: CreateRequest): ThreadRow {
    var status := if ReviewRequired(q) then ThreadAwaitingReview else ThreadActive;
    var row :=
      if q.threadId in threads then threads[q.threadId].(status := status) else ThreadRow(q.tenant, status, map[]);
    if q.result.interrupt.Some? then row.(pending := q.result.interrupt.value)
    else if !ReviewRequired(q) then row.(pending := map[])
    else row
  }

  ghost function RunCommitted(db: Db, q: CreateRequest): Db {
    db.(runs := db.runs[q.runId := RunRow(q.tenant, q.threadId, FirstStatus(q), ReviewRequired(q), q.result.output)],
        events := db.events + EventRows(q),
        threads := db.threads[q.threadId := ThreadAfterCreate(db.threads, q)])
  }

  function NewCase(q: CreateRequest): CaseRow {
    CaseRow(q.tenant, CaseOpen, Some(q.runId), Some(q.runId), None, None)
  }

  ghost function CaseCommitted(db: Db, q: CreateRequest): Db {
    db.(cases := db.cases[q.caseId := NewCase(q)])
  }

  function MarkedForReview(row: RunRow, caseId: string): RunRow {
    row.(status := NeedsReview, requiresReview := true, output := row.output["review_case_id" := Str(caseId)])
  }

  ghost function ReviewCommitted(db: Db, q: CreateRequest): Db
    requires q.runId in db.runs
  {
    db.(runs := db.runs[q.runId := MarkedForReview(db.runs[q.runId], q.caseId)])
  }

  /** What is committed when the request is over. */
  ghost function AfterCreate(db: Db, q: CreateRequest): Db {
    var first := RunCommitted(db, q);
    if !ShouldCreateReviewCase(q.result.confidence, ReviewRequired(q), q.ruleDecision)
      || q.progress.StopsAfterRun? then first
    else if q.progress.StopsAfterCase? then CaseCommitted(first, q)
    else ReviewCommitted(CaseCommitted(first, q), q)
  }

  // ----- ingesting a case

  /** A case posted for review; its payload may name a run. */
  datatype IngestRequest = IngestRequest(caseId: string, tenant: string, payloadRunId: Option<string>)

  ghost function AfterIngest(db: Db, q: IngestRequest): Db {
    var runId := if q.payloadRunId.Some? && q.payloadRunId.value != "" then q.payloadRunId else None;
    db.(cases := db.cases[q.caseId := CaseRow(q.tenant, CaseOpen, runId, q.payloadRunId, None, None)])
  }

  // ----- resuming a run

  datatype Decision = Approve | Edit | Reject

  /** `mayAct` says for which tenants the reviewer's token is good. */
  datatype ResumeRequest = ResumeRequest(
    runId: string, decision: Decision, note: string, editedAnswer: Option<string>, reviewer: string,
    mayAct: string -> bool)

  datatype Response = Accepted | HttpError(code: int)

  function ResponseTo(db: Db, q: ResumeRequest): Response {
    if q.runId !in db.runs then HttpError(404)
    else if !q.mayAct(db.runs[q.runId].tenant) then HttpError(403)
    else if !InReview(db.runs[q.runId].status) then HttpError(409)
    else if q.decision == Edit && (q.editedAnswer.None? || q.editedAnswer.value == "") then HttpError(422)
    else Accepted
  }

  function Approves(d: Decision): bool {
    d != Reject
  }

  function DecisionName(d: Decision): string {
    match d
    case Approve => "approve"
    case Edit => "edit"
    case Reject => "reject"
  }

  function DecidedStatus(q: ResumeRequest): RunStatus {
    if Approves(q.decision) then RunCompleted else RunRejected
  }

  function ResolvedOutput(output: map<string, Value>, q: ResumeRequest): map<string, Value> {
    var edited :=
      if q.decision == Edit && q.editedAnswer.Some? then output["answer" := Str(q.editedAnswer.value)] else output;
    edited["resolution" := Dict(map["decision" := Str(DecisionName(q.decision)), "note" := Str(q.note),
                                    "resolved_by" := Str(q.reviewer)])]
  }

  function ResumedRun(row: RunRow, q: ResumeRequest): RunRow {
    row.(status := DecidedStatus(q), requiresReview := false, output := ResolvedOutput(row.output, q))
  }

  function ResumedThread(row: ThreadRow, q: ResumeRequest): ThreadRow {
    row.(status := if Approves(q.decision) then ThreadActive else ThreadRejected, pending := map[])
  }

  predicate OpenIn(c: CaseRow, tenant: string) {
    c.tenant == tenant && c.status == CaseOpen
  }

  predicate LinkedByKey(c: CaseRow, tenant: string, runId: string) {
    OpenIn(c, tenant) && c.runId == Some(runId)
  }

  predicate LinkedByPayload(c: CaseRow, tenant: string, runId: string) {
    OpenIn(c, tenant) && c.payloadRunId == Some(runId)
  }

  /** The cases that a decision closes: those with the foreign key, or else those that name the run in their payload. */
  function LinkedCases(cases: map<string, CaseRow>, tenant: string, runId: string): set<string> {
    var byKey := set id | id in cases && LinkedByKey(cases[id], tenant, runId);
    if byKey != {} then byKey else set id | id in cases && LinkedByPayload(cases[id], tenant, runId)
  }

  function ClosedCase(c: CaseRow, q: ResumeRequest): CaseRow {
    c.(status := if Approves(q.decision) then CaseResolved else CaseRejected,
       resolvedBy := Some(q.reviewer), note := Some(q.note))
  }

  ghost function CasesClosed(cases: map<string, CaseRow>, linked: set<string>, q: ResumeRequest): map<string, CaseRow> {
    map id | id in cases :: if id in linked then ClosedCase(cases[id], q) else cases[id]
  }

  ghost function AfterAccepted(db: Db, q: ResumeRequest, next: int): Db
    requires q.runId in db.runs
  {
    var run := db.runs[q.runId];
    Db(db.runs[q.runId := ResumedRun(run, q)],
       db.events + [EventRow(q.runId, next, Resume, "human_review_checkpoint", run.tenant)],
       CasesClosed(db.cases, LinkedCases(db.cases, run.tenant, q.runId), q),
       if run.threadId in db.threads then db.threads[run.threadId := ResumedThread(db.threads[run.threadId], q)]
       else db.threads)
  }

  ghost predicate IsNext(db: Db, runId: string, next: int) {
    exists r :: IsLargest(db.events, runId, r) && next == (if r.Some? then r.value + 1 else 0)
  }

  /** What is committed when the request is over. */
  ghost predicate AfterResume(db: Db, q: ResumeRequest, after: Db) {
    if ResponseTo(db, q) == Accepted then
      exists next :: IsNext(db, q.runId, next) && after == AfterAccepted(db, q, next)
    else
      after == db
  }

  // ----- the handlers

  /** The committed database, and the tables as the current session sees them before its next commit. */
  class AgentRunsApi {
    var committed: Db
    var runs: map<string, RunRow>
    var events: seq<EventRow>
    var cases: map<string, CaseRow>
    var threads: map<string, ThreadRow>

    ghost function Session(): Db
      reads this
    {
      Db(runs, events, cases, threads)
    }

    constructor (db: Db)
      ensures committed == db
    {
      committed := db;
      runs, events, cases, threads := db.runs, db.events, db.cases, db.threads;
    }

    /** A session starts from what is committed: closing the one before it dropped its uncommitted changes. */
    method Open()
      modifies this
      ensures committed == old(committed) && Session() == committed
    {
      runs, events, cases, threads := committed.runs, committed.events, committed.cases, committed.threads;
    }

    method Commit()
      modifies this
      ensures Session() == old(Session()) && committed == old(Session())
    {
      committed := Db(runs, events, cases, threads);
    }

    /** `persist_agent_events`. */
    method PersistAgentEvents(q: CreateRequest)
      modifies this`events
      ensures events == old(events) + EventRows(q)
    {
      assert events + EventRows(q)[..0] == events;
      for i := 0 to |q.result.events|
        invariant events == old(events) + EventRows(q)[..i]
      {
        assert EventRows(q)[..i + 1] == EventRows(q)[..i] + [EventRowOf(q, q.result.events[i])];
        events := events + [EventRowOf(q, q.result.events[i])];
      }
      assert EventRows(q)[..|q.result.events|] == EventRows(q);
    }

    /** `create_agent_run`, from the agent's result on. */
    method CreateAgentRun(q: CreateRequest)
      modifies this
      ensures committed == AfterCreate(old(committed), q)
    {
      Open();
      threads := threads[q.threadId := ThreadAfterCreate(threads, q)];
      runs := runs[q.runId := RunRow(q.tenant, q.threadId, FirstStatus(q), ReviewRequired(q), q.result.output)];
      PersistAgentEvents(q);
      Commit();
      if !ShouldCreateReviewCase(q.result.confidence, ReviewRequired(q), q.ruleDecision) || q.progress.StopsAfterRun? {
        return;
      }
      cases := cases[q.caseId := NewCase(q)];
      Commit();
      if q.progress.StopsAfterCase? {
        return;
      }
      runs := runs[q.runId := MarkedForReview(runs[q.runId], q.caseId)];
      Commit();
    }

    /** `resume_agent_run`. The status is assigned before the edited answer is looked at; a refusal leaves
        that assignment in the session only. */
    method ResumeAgentRun(q: ResumeRequest) returns (response: Response)
      modifies this
      ensures response == ResponseTo(old(committed), q)
      ensures AfterResume(old(committed), q, committed)
    {
      Open();
      if q.runId !in runs {
        return HttpError(404);
      }
      var run := runs[q.runId];
      if !q.mayAct(run.tenant) {
        return HttpError(403);
      }
      if !InReview(run.status) {
        return HttpError(409);
      }
      runs := runs[q.runId := run.(status := DecidedStatus(q), requiresReview := false)];
      if q.decision == Edit && (q.editedAnswer.None? || q.editedAnswer.value == "") {
        return HttpError(422);
      }
      Settle(q, old(committed));
      response := Accepted;
    }

    /** The rest of the handler, once the request can no longer be refused. */
    method Settle(q: ResumeRequest, ghost before: Db)
      requires q.runId in before.runs
      requires Session() ==
               before.(runs := before.runs[
                 q.runId := before.runs[q.runId].(status := DecidedStatus(q), requiresReview := false)])
      modifies this
      ensures exists next :: IsNext(before, q.runId, next) && committed == AfterAccepted(before, q, next)
    {
      var run := runs[q.runId];
      runs := runs[q.runId := ResumedRun(run, q)];
      if run.threadId in threads {
        threads := threads[run.threadId := ResumedThread(threads[run.threadId], q)];
      }
      var next := NextEventSequence(events, q.runId);
      events := events + [EventRow(q.runId, next, Resume, "human_review_checkpoint", run.tenant)];
      CloseCases(LinkedCases(cases, run.tenant, q.runId), q);
      Commit();
      assert IsNext(before, q.runId, next);
      assert committed.runs == AfterAccepted(before, q, next).runs;
    }

    method CloseCases(linked: set<string>, q: ResumeRequest)
      requires linked <= cases.Keys
      modifies this`cases
      ensures cases == CasesClosed(old(cases), linked, q)
    {
      var rest := linked;
      while rest != {}
        invariant rest <= linked && cases.Keys == old(cases).Keys
        invariant forall id :: id in cases ==>
          cases[id] == if id in linked - rest then ClosedCase(old(cases)[id], q) else old(cases)[id]
        decreases |rest|
      {
        var id :| id in rest;
        cases := cases[id := ClosedCase(cases[id], q)];
        rest := rest - {id};
      }
    }

    /** `ingest_review_case`. */
    method IngestReviewCase(q: IngestRequest)
      modifies this
      ensures committed == AfterIngest(old(committed), q)
    {
      Open();
      var runId := if q.payloadRunId.Some? && q.payloadRunId.value != "" then q.payloadRunId else None;
      cases := cases[q.caseId := CaseRow(q.tenant, CaseOpen, runId, q.payloadRunId, None, None)];
      Commit();
    }
  }
}
