/** What holds of runs, events and review cases over every history of requests. */
module LifecycleHistory {
  import opened Values
  import opened GraphEngine
  import opened RunLifecycle

  datatype Request = Creating(c: CreateRequest) | Resuming(r: ResumeRequest) | Ingesting(i: IngestRequest)

  ghost predicate Step(db: Db, q: Request, after: Db) {
    match q
    case Creating(c) => after == AfterCreate(db, c)
    case Resuming(r) => AfterResume(db, r, after)
    case Ingesting(i) => after == AfterIngest(db, i)
  }

  /** What the agents hand over: events numbered 0, 1, 2, ... and no RESUME among them. */
  ghost predicate FreshTimeline(events: seq<Event>) {
    forall i :: 0 <= i < |events| ==> events[i].sequence == i && events[i].kind != Resume
  }

  /** New ids are new, and created runs bring a fresh timeline. */
  ghost predicate Admissible(db: Db, q: Request) {
    match q
    case Creating(c) => c.runId !in db.runs && c.caseId !in db.cases && FreshTimeline(c.result.events)
    case Resuming(_) => true
    case Ingesting(i) => i.caseId !in db.cases
  }

  /** The committed databases before and after each of the requests. */
  ghost predicate IsHistory(states: seq<Db>, requests: seq<Request>) {
    |states| == |requests| + 1 &&
    forall k :: 0 <= k < |requests| ==> StepAt(states, requests, k)
  }

  ghost predicate StepAt(states: seq<Db>, requests: seq<Request>, k: nat)
    requires k < |requests| && k + 1 < |states|
  {
    Admissible(states[k], requests[k]) && Step(states[k], requests[k], states[k + 1])
  }

  // ----- the event log of each run

  /** The run exists and is not waiting for a reviewer. */
  ghost predicate Settled(db: Db, runId: string) {
    runId in db.runs && !InReview(db.runs[runId].status)
  }

  /** Rows numbered 0..k-1 among which a RESUME is the last and occurs only if the run is decided. */
  ghost predicate SoundRows(rows: seq<EventRow>, decided: bool) {
    NumberedRows(rows) && forall i :: 0 <= i < |rows| && rows[i].kind == Resume ==> i == |rows| - 1 && decided
  }

  /** A run's events are numbered 0..k-1, and a RESUME is the last of them and belongs to a decided run. */
  ghost predicate SoundRun(db: Db, runId: string) {
    var rows := RowsOf(db.events, runId);
    && SoundRows(rows, Settled(db, runId))
    && (runId !in db.runs ==> rows == [])
  }

  ghost predicate Sound(db: Db) {
    forall runId :: SoundRun(db, runId)
  }

  lemma EmptyIsSound()
    ensures Sound(EMPTY)
  {
    forall runId ensures SoundRun(EMPTY, runId) {
      assert RowsOf(EMPTY.events, runId) == [];
    }
  }

  lemma RowsOfCreated(c: CreateRequest, runId: string)
    ensures RowsOf(EventRows(c), runId) == if runId == c.runId then EventRows(c) else []
  {
    var rows := EventRows(c);
    assert forall i :: 0 <= i < |rows| ==> rows[i].runId == c.runId;
    if runId == c.runId {
      RowsOfOwn(rows, runId);
    } else {
      RowsOfOthers(rows, runId);
    }
  }

  lemma CreateAppends(db: Db, c: CreateRequest)
    ensures AfterCreate(db, c).events == db.events + EventRows(c)
  {}

  lemma RowsAfterCreate(db: Db, c: CreateRequest, runId: string)
    ensures RowsOf(AfterCreate(db, c).events, runId) ==
            RowsOf(db.events, runId) + (if runId == c.runId then EventRows(c) else [])
  {
    CreateAppends(db, c);
    RowsOfConcat(db.events, EventRows(c), runId);
    RowsOfCreated(c, runId);
  }

  lemma CreateTouchesOnlyItsRun(db: Db, c: CreateRequest, runId: string)
    requires c.runId !in db.runs
    ensures var after := AfterCreate(db, c);
            && (runId in after.runs <==> runId in db.runs || runId == c.runId)
            && (runId in db.runs ==> after.runs[runId] == db.runs[runId])
  {}

  lemma FreshRowsAreSound(c: CreateRequest, decided: bool)
    requires FreshTimeline(c.result.events)
    ensures SoundRows(EventRows(c), decided)
  {}

  lemma CreateKeepsSound(db: Db, c: CreateRequest, runId: string)
    requires SoundRun(db, runId) && c.runId !in db.runs && FreshTimeline(c.result.events)
    ensures SoundRun(AfterCreate(db, c), runId)
  {
    RowsAfterCreate(db, c, runId);
    CreateTouchesOnlyItsRun(db, c, runId);
    if runId == c.runId {
      assert [] + EventRows(c) == EventRows(c);
      FreshRowsAreSound(c, Settled(AfterCreate(db, c), runId));
    } else {
      assert RowsOf(db.events, runId) + [] == RowsOf(db.events, runId);
    }
  }

  lemma RowsAfterResume(db: Db, q: ResumeRequest, next: int, runId: string)
    requires q.runId in db.runs
    ensures RowsOf(AfterAccepted(db, q, next).events, runId) ==
            RowsOf(db.events, runId) +
            (if runId != q.runId then []
             else [EventRow(q.runId, next, Resume, "human_review_checkpoint", db.runs[q.runId].tenant)])
  {
    var row := EventRow(q.runId, next, Resume, "human_review_checkpoint", db.runs[q.runId].tenant);
    RowsOfConcat(db.events, [row], runId);
    if runId == q.runId {
      RowsOfOwn([row], runId);
    } else {
      RowsOfOthers([row], runId);
    }
  }

  lemma AcceptedKeepsSound(db: Db, q: ResumeRequest, next: int, runId: string)
    requires SoundRun(db, runId) && ResponseTo(db, q) == Accepted && IsNext(db, q.runId, next)
    ensures SoundRun(AfterAccepted(db, q, next), runId)
  {
    RowsAfterResume(db, q, next, runId);
    if runId == q.runId {
      var r :| IsLargest(db.events, q.runId, r) && next == (if r.Some? then r.value + 1 else 0);
      NextIsCount(db.events, runId, r);
    } else {
      assert RowsOf(db.events, runId) + [] == RowsOf(db.events, runId);
    }
  }

  lemma StepKeepsSound(db: Db, q: Request, after: Db)
    requires Sound(db) && Admissible(db, q) && Step(db, q, after)
    ensures Sound(after)
  {
    forall runId ensures SoundRun(after, runId) {
      assert SoundRun(db, runId);
      match q
      case Creating(c) => CreateKeepsSound(db, c, runId);
      case Resuming(r) =>
        if ResponseTo(db, r) == Accepted {
          var next :| IsNext(db, r.runId, next) && after == AfterAccepted(db, r, next);
          AcceptedKeepsSound(db, r, next, runId);
        }
      case Ingesting(_) =>
    }
  }

  /** Over every history: each run's events are numbered exactly 0..k-1, and RESUME occurs in them at most
      once, as the last, and only for a run that has left review. */
  lemma {:induction false} EventsOverHistory(states: seq<Db>, requests: seq<Request>, k: nat)
    requires IsHistory(states, requests) && k < |states| && Sound(states[0])
    ensures Sound(states[k])
  {
    if k > 0 {
      EventsOverHistory(states, requests, k - 1);
      assert StepAt(states, requests, k - 1);
      StepKeepsSound(states[k - 1], requests[k - 1], states[k]);
    }
  }

  // ----- leaving review

  lemma StepKeepsSettled(db: Db, q: Request, after: Db, runId: string)
    requires Admissible(db, q) && Step(db, q, after) && Settled(db, runId)
    ensures Settled(after, runId) && after.runs[runId] == db.runs[runId]
  {
    match q
    case Creating(c) => CreateTouchesOnlyItsRun(db, c, runId);
    case Resuming(r) =>
      if ResponseTo(db, r) == Accepted {
        var next :| IsNext(db, r.runId, next) && after == AfterAccepted(db, r, next);
      }
    case Ingesting(_) =>
  }

  /** As long as requests come one after another, a run that is out of review is never touched again: it keeps its
      status and its output. `LifecycleInterleaved` lets them come between each other's commits. */
  lemma {:induction false} NeverBackInReview(states: seq<Db>, requests: seq<Request>, runId: string, i: nat, j: nat)
    requires IsHistory(states, requests) && i <= j < |states| && Settled(states[i], runId)
    ensures Settled(states[j], runId) && states[j].runs[runId] == states[i].runs[runId]
  {
    if i < j {
      NeverBackInReview(states, requests, runId, i, j - 1);
      assert StepAt(states, requests, j - 1);
      StepKeepsSettled(states[j - 1], requests[j - 1], states[j], runId);
    }
  }

  /** The only way out of review is a decision that was accepted, and it is recorded as the run's last event. */
  lemma LeavesReviewByDecision(db: Db, q: Request, after: Db, runId: string)
    requires Sound(db) && Admissible(db, q) && Step(db, q, after)
    requires runId in db.runs && InReview(db.runs[runId].status) && Settled(after, runId)
    ensures q.Resuming? && q.r.runId == runId && ResponseTo(db, q.r) == Accepted
    ensures after.runs[runId].status == DecidedStatus(q.r)
    ensures var rows := RowsOf(after.events, runId);
            |rows| == |RowsOf(db.events, runId)| + 1 && rows[|rows| - 1].kind == Resume &&
              rows[|rows| - 1].sequence == |rows| - 1
  {
    match q
    case Creating(c) => CreateTouchesOnlyItsRun(db, c, runId);
    case Resuming(r) =>
      if ResponseTo(db, r) == Accepted {
        var next :| IsNext(db, r.runId, next) && after == AfterAccepted(db, r, next);
        RowsAfterResume(db, r, next, runId);
        StepKeepsSound(db, q, after);
        assert SoundRun(after, runId);
      }
    case Ingesting(_) =>
  }

  /** A second decision on the same run is refused, whatever other requests came in between. */
  lemma SecondDecisionRefused(states: seq<Db>, requests: seq<Request>, i: nat, j: nat)
    requires IsHistory(states, requests) && i < j < |requests|
    requires requests[i].Resuming? && ResponseTo(states[i], requests[i].r) == Accepted
    requires requests[j].Resuming? && requests[j].r.runId == requests[i].r.runId
    ensures ResponseTo(states[j], requests[j].r) in {HttpError(403), HttpError(409)} && states[j + 1] == states[j]
  {
    assert StepAt(states, requests, i);
    var q := requests[i].r;
    var next :| IsNext(states[i], q.runId, next) && states[i + 1] == AfterAccepted(states[i], q, next);
    assert Settled(states[i + 1], q.runId);
    NeverBackInReview(states, requests, q.runId, i + 1, j);
    assert StepAt(states, requests, j);
  }

  // ----- review cases

  /** Which of the cases that were open stay open when a decision on a run is accepted. A case with the run's
      key stays open exactly if it belongs to another tenant; a case that only names the run in its payload
      stays open also if some case in the run's tenant has the key. */
  lemma CasesAfterDecision(db: Db, q: ResumeRequest, after: Db, id: string)
    requires ResponseTo(db, q) == Accepted && AfterResume(db, q, after)
    requires id in db.cases && db.cases[id].status == CaseOpen
    ensures id in after.cases
    ensures var c, tenant := db.cases[id], db.runs[q.runId].tenant;
            var keyed := exists other :: other in db.cases && LinkedByKey(db.cases[other], tenant, q.runId);
            && (c.runId == Some(q.runId) ==> (after.cases[id].status == CaseOpen <==> c.tenant != tenant))
            && (c.runId != Some(q.runId) && c.payloadRunId == Some(q.runId) ==>
                  (after.cases[id].status == CaseOpen <==> c.tenant != tenant || keyed))
            && (c.runId != Some(q.runId) && c.payloadRunId != Some(q.runId) ==> after.cases[id] == c)
  {
    var tenant := db.runs[q.runId].tenant;
    var next :| IsNext(db, q.runId, next) && after == AfterAccepted(db, q, next);
    var byKey := set x | x in db.cases && LinkedByKey(db.cases[x], tenant, q.runId);
    if exists other :: other in db.cases && LinkedByKey(db.cases[other], tenant, q.runId) {
      var other :| other in db.cases && LinkedByKey(db.cases[other], tenant, q.runId);
      assert other in byKey;
    } else {
      assert byKey == {};
    }
  }

  // ----- the cases of runs in review

  /** Cases are written with the key and the payload copy in agreement. */
  ghost predicate KeysAgree(db: Db) {
    forall id :: id in db.cases && db.cases[id].runId.Some? ==> db.cases[id].runId == db.cases[id].payloadRunId
  }

  ghost predicate HasOpenCase(db: Db, runId: string, tenant: string) {
    exists id :: id in db.cases && LinkedByKey(db.cases[id], tenant, runId)
  }

  /** Every run that waits for a reviewer has an open case in its own tenant. */
  ghost predicate Reviewable(db: Db) {
    KeysAgree(db) &&
    forall runId :: runId in db.runs && InReview(db.runs[runId].status) ==>
      HasOpenCase(db, runId, db.runs[runId].tenant)
  }

  /** An agent that reports a review status also asks for the review. */
  ghost predicate Coherent(r: AgentResult) {
    InReview(r.status) ==> r.requiresReview
  }

  lemma CaseKept(db: Db, after: Db, runId: string, tenant: string)
    requires HasOpenCase(db, runId, tenant)
    requires forall id :: id in db.cases && LinkedByKey(db.cases[id], tenant, runId) ==>
             id in after.cases && after.cases[id] == db.cases[id]
    ensures HasOpenCase(after, runId, tenant)
  {
    var id :| id in db.cases && LinkedByKey(db.cases[id], tenant, runId);
    assert LinkedByKey(after.cases[id], tenant, runId);
  }

  /** After a create request the new run waits for a reviewer without a case exactly if the request stopped
      right after committing a run that needs review. */
  lemma CreatedWithoutCaseExactlyWhen(db: Db, c: CreateRequest)
    requires Coherent(c.result) && c.runId !in db.runs
    requires forall id :: id in db.cases ==> db.cases[id].runId != Some(c.runId)
    ensures var after := AfterCreate(db, c);
            InReview(after.runs[c.runId].status) && !HasOpenCase(after, c.runId, c.tenant) <==>
            InReview(FirstStatus(c)) && c.progress.StopsAfterRun?
  {
    var after := AfterCreate(db, c);
    if ShouldCreateReviewCase(c.result.confidence, ReviewRequired(c), c.ruleDecision) && !c.progress.StopsAfterRun? {
      assert LinkedByKey(after.cases[c.caseId], c.tenant, c.runId);
    }
  }

  lemma CreateKeepsReviewable(db: Db, c: CreateRequest)
    requires Reviewable(db) && c.runId !in db.runs && c.caseId !in db.cases && Coherent(c.result) &&
             c.progress.Finishes?
    ensures Reviewable(AfterCreate(db, c))
  {
    var after := AfterCreate(db, c);
    forall runId | runId in after.runs && InReview(after.runs[runId].status)
      ensures HasOpenCase(after, runId, after.runs[runId].tenant)
    {
      CreateTouchesOnlyItsRun(db, c, runId);
      if runId == c.runId {
        assert LinkedByKey(after.cases[c.caseId], c.tenant, c.runId);
      } else {
        CaseKept(db, after, runId, after.runs[runId].tenant);
      }
    }
  }

  lemma ResumeKeepsReviewable(db: Db, q: ResumeRequest, after: Db)
    requires Reviewable(db) && AfterResume(db, q, after)
    ensures Reviewable(after)
  {
    if ResponseTo(db, q) == Accepted {
      var next :| IsNext(db, q.runId, next) && after == AfterAccepted(db, q, next);
      forall runId | runId in after.runs && InReview(after.runs[runId].status)
        ensures HasOpenCase(after, runId, after.runs[runId].tenant)
      {
        CaseKept(db, after, runId, after.runs[runId].tenant);
      }
    }
  }

  lemma IngestKeepsReviewable(db: Db, i: IngestRequest)
    requires Reviewable(db) && i.caseId !in db.cases
    ensures Reviewable(AfterIngest(db, i))
  {
    var after := AfterIngest(db, i);
    forall runId | runId in after.runs && InReview(after.runs[runId].status)
      ensures HasOpenCase(after, runId, after.runs[runId].tenant)
    {
      CaseKept(db, after, runId, after.runs[runId].tenant);
    }
  }

  /** As long as create requests finish, every run in review has an open case in its tenant, at every moment
      of every history: a decision on one run never closes the case of another that still waits. */
  lemma {:induction false} ReviewableOverHistory(states: seq<Db>, requests: seq<Request>, k: nat)
    requires IsHistory(states, requests) && k < |states| && Reviewable(states[0])
    requires forall i :: 0 <= i < |requests| && requests[i].Creating? ==>
             Coherent(requests[i].c.result) && requests[i].c.progress.Finishes?
    ensures Reviewable(states[k])
  {
    if k > 0 {
      ReviewableOverHistory(states, requests, k - 1);
      assert StepAt(states, requests, k - 1);
      match requests[k - 1]
      case Creating(c) => CreateKeepsReviewable(states[k - 1], c);
      case Resuming(r) => ResumeKeepsReviewable(states[k - 1], r, states[k]);
      case Ingesting(i) => IngestKeepsReviewable(states[k - 1], i);
    }
  }
}
