/** Create requests whose three commits other requests may come between. */
module LifecycleInterleaved {
  import opened Values
  import opened GraphEngine
  import opened RunLifecycle
  import opened LifecycleHistory

  /** One commit. A create request makes up to three; a decision and a posted case one each. */
  datatype Commit =
    | RunCommit(c: CreateRequest)
    | CaseCommit(c: CreateRequest)
    | MarkCommit(c: CreateRequest)
    | Decision(r: ResumeRequest)
    | Posting(i: IngestRequest)

  /** What agents report: a fresh timeline, another status than "awaiting review", and no resolution. */
  ghost predicate Reported(r: AgentResult) {
    FreshTimeline(r.events) && r.status != AwaitingReview && "resolution" !in r.output
  }

  function MarkedOutput(c: CreateRequest): map<string, Value> {
    c.result.output["review_case_id" := Str(c.caseId)]
  }

  /** The third commit writes the columns that the session changed since its first: the output always, the status
      and the flag only if they were not already what they are set to. */
  ghost function Marked(db: Db, c: CreateRequest): Db
    requires c.runId in db.runs
  {
    var row := db.runs[c.runId];
    db.(runs := db.runs[c.runId := row.(
      status := if FirstStatus(c) == NeedsReview then row.status else NeedsReview,
      requiresReview := if ReviewRequired(c) then row.requiresReview else true,
      output := MarkedOutput(c))])
  }

  /** Without anything in between the three commits are those of the sequential request. */
  lemma UninterruptedIsSequential(db: Db, c: CreateRequest)
    requires ShouldCreateReviewCase(c.result.confidence, ReviewRequired(c), c.ruleDecision) && c.progress.Finishes?
    ensures Marked(CaseCommitted(RunCommitted(db, c), c), c) == AfterCreate(db, c)
  {}

  ghost predicate CommitStep(db: Db, commit: Commit, after: Db) {
    match commit
    case RunCommit(c) => c.runId !in db.runs && Reported(c.result) && after == RunCommitted(db, c)
    case CaseCommit(c) => c.caseId !in db.cases && after == CaseCommitted(db, c)
    case MarkCommit(c) => c.runId in db.runs && after == Marked(db, c)
    case Decision(r) => AfterResume(db, r, after)
    case Posting(i) => i.caseId !in db.cases && after == AfterIngest(db, i)
  }

  /** The commits of one create request come in their order and once each, as far as the request gets. */
  ghost predicate InTurn(commits: seq<Commit>, k: nat)
    requires k < |commits|
  {
    match commits[k]
    case CaseCommit(c) =>
      RunCommit(c) in commits[..k] && !c.progress.StopsAfterRun? &&
      ShouldCreateReviewCase(c.result.confidence, ReviewRequired(c), c.ruleDecision)
    case MarkCommit(c) => CaseCommit(c) in commits[..k] && MarkCommit(c) !in commits[..k] && c.progress.Finishes?
    case _ => true
  }

  ghost predicate CommitAt(states: seq<Db>, commits: seq<Commit>, k: nat)
    requires k < |commits| && k + 1 < |states|
  {
    InTurn(commits, k) && CommitStep(states[k], commits[k], states[k + 1])
  }

  /** The committed databases before and after each of the commits, from the empty one on. */
  ghost predicate IsInterleaving(states: seq<Db>, commits: seq<Commit>) {
    |states| == |commits| + 1 && states[0] == EMPTY && forall k :: 0 <= k < |commits| ==> CommitAt(states, commits, k)
  }

  // ----- one commit

  /** Every commit keeps every run, and its tenant. */
  lemma CommitKeepsRun(db: Db, commit: Commit, after: Db, runId: string)
    requires CommitStep(db, commit, after) && runId in db.runs
    ensures runId in after.runs && after.runs[runId].tenant == db.runs[runId].tenant
  {
    if commit.Decision? && ResponseTo(db, commit.r) == Accepted {
      var next :| IsNext(db, commit.r.runId, next) && after == AfterAccepted(db, commit.r, next);
    }
  }

  ghost predicate HasResume(db: Db, runId: string) {
    exists i :: 0 <= i < |db.events| && db.events[i].runId == runId && db.events[i].kind == Resume
  }

  lemma CommitKeepsResume(db: Db, commit: Commit, after: Db, runId: string)
    requires CommitStep(db, commit, after) && HasResume(db, runId)
    ensures HasResume(after, runId)
  {
    var i :| 0 <= i < |db.events| && db.events[i].runId == runId && db.events[i].kind == Resume;
    if commit.Decision? && ResponseTo(db, commit.r) == Accepted {
      var next :| IsNext(db, commit.r.runId, next) && after == AfterAccepted(db, commit.r, next);
    }
    assert after.events[i] == db.events[i];
  }

  ghost predicate Marks(commit: Commit, runId: string) {
    commit.MarkCommit? && commit.c.runId == runId
  }

  /** A commit that finds a run out of review and leaves it so keeps its row, but for the output that the third
      commit of its create request writes. */
  lemma SettledStep(db: Db, commit: Commit, after: Db, runId: string)
    requires CommitStep(db, commit, after) && Settled(db, runId) && Settled(after, runId)
    ensures after.runs[runId].status == db.runs[runId].status
    ensures after.runs[runId].output ==
            if Marks(commit, runId) then MarkedOutput(commit.c) else db.runs[runId].output
  {
    if commit.Decision? && ResponseTo(db, commit.r) == Accepted {
      var next :| IsNext(db, commit.r.runId, next) && after == AfterAccepted(db, commit.r, next);
    }
  }

  // ----- the create request of a run

  lemma OneMoreCommit(commits: seq<Commit>, k: nat, commit: Commit)
    requires 0 < k <= |commits|
    ensures commit in commits[..k] <==> commit in commits[..k - 1] || commit == commits[k - 1]
  {
    assert commits[..k] == commits[..k - 1] + [commits[k - 1]];
  }

  /** A run that was committed is there, in its tenant. */
  lemma {:induction false} CreatedIsThere(states: seq<Db>, commits: seq<Commit>, c: CreateRequest, k: nat)
    requires IsInterleaving(states, commits) && k < |states| && RunCommit(c) in commits[..k]
    ensures c.runId in states[k].runs && states[k].runs[c.runId].tenant == c.tenant && Reported(c.result)
  {
    OneMoreCommit(commits, k, RunCommit(c));
    assert CommitAt(states, commits, k - 1);
    if RunCommit(c) in commits[..k - 1] {
      CreatedIsThere(states, commits, c, k - 1);
      CommitKeepsRun(states[k - 1], commits[k - 1], states[k], c.runId);
    }
  }

  /** A run has one create request. */
  lemma {:induction false} CreatedOnce(
    states: seq<Db>, commits: seq<Commit>, a: CreateRequest, b: CreateRequest, k: nat)
    requires IsInterleaving(states, commits) && k < |states| && a.runId == b.runId
    requires RunCommit(a) in commits[..k] && RunCommit(b) in commits[..k]
    ensures a == b
  {
    OneMoreCommit(commits, k, RunCommit(a));
    OneMoreCommit(commits, k, RunCommit(b));
    assert CommitAt(states, commits, k - 1);
    if RunCommit(a) in commits[..k - 1] {
      CreatedIsThere(states, commits, a, k - 1);
      if RunCommit(b) in commits[..k - 1] {
        CreatedOnce(states, commits, a, b, k - 1);
      }
    } else if RunCommit(b) in commits[..k - 1] {
      CreatedIsThere(states, commits, b, k - 1);
    }
  }

  /** The later commits of a create request follow its first. */
  lemma CreatedBefore(states: seq<Db>, commits: seq<Commit>, k: nat)
    requires IsInterleaving(states, commits) && k < |commits| && (commits[k].CaseCommit? || commits[k].MarkCommit?)
    ensures RunCommit(commits[k].c) in commits[..k]
  {
    assert CommitAt(states, commits, k);
    if commits[k].MarkCommit? {
      var c := commits[k].c;
      var m :| 0 <= m < k && commits[m] == CaseCommit(c);
      assert CommitAt(states, commits, m);
      var l :| 0 <= l < m && commits[l] == RunCommit(c);
      assert commits[..k][l] == RunCommit(c);
    }
  }

  // ----- the event log

  /** The run is as its first commit left it. */
  ghost predicate Untouched(db: Db, c: CreateRequest) {
    c.runId in db.runs && db.runs[c.runId].status == FirstStatus(c) && !HasResume(db, c.runId)
  }

  lemma NoRowsNoResume(db: Db, runId: string)
    requires SoundRun(db, runId) && runId !in db.runs
    ensures !HasResume(db, runId)
  {
    RowsAreMembers(db.events, runId);
  }

  lemma RunCommitIsUntouched(db: Db, c: CreateRequest)
    requires SoundRun(db, c.runId) && c.runId !in db.runs && FreshTimeline(c.result.events)
    ensures Untouched(RunCommitted(db, c), c)
  {
    NoRowsNoResume(db, c.runId);
  }

  /** A commit of another kind than the three that touch the run leaves it untouched. */
  lemma StaysUntouched(db: Db, commit: Commit, after: Db, c: CreateRequest)
    requires CommitStep(db, commit, after) && Untouched(db, c) && !InReview(FirstStatus(c))
    requires !Marks(commit, c.runId)
    ensures Untouched(after, c)
  {
    if commit.Decision? && ResponseTo(db, commit.r) == Accepted {
      var next :| IsNext(db, commit.r.runId, next) && after == AfterAccepted(db, commit.r, next);
    }
  }

  /** A run whose first status is not "needs review" cannot be decided before its create request commits for the
      third time. */
  lemma {:induction false} UntouchedUntilMarked(states: seq<Db>, commits: seq<Commit>, c: CreateRequest, k: nat)
    requires IsInterleaving(states, commits) && k < |states| && FirstStatus(c) != NeedsReview
    requires RunCommit(c) in commits[..k] && MarkCommit(c) !in commits[..k]
    ensures Untouched(states[k], c)
    decreases k
  {
    var commit := commits[k - 1];
    OneMoreCommit(commits, k, RunCommit(c));
    OneMoreCommit(commits, k, MarkCommit(c));
    assert CommitAt(states, commits, k - 1);
    if RunCommit(c) in commits[..k - 1] {
      UntouchedUntilMarked(states, commits, c, k - 1);
      CreatedIsThere(states, commits, c, k - 1);
      if Marks(commit, c.runId) {
        CreatedBefore(states, commits, k - 1);
        CreatedOnce(states, commits, c, commit.c, k - 1);
      }
      StaysUntouched(states[k - 1], commit, states[k], c);
    } else {
      EventsOverInterleavings(states, commits, k - 1);
      assert SoundRun(states[k - 1], c.runId);
      RunCommitIsUntouched(states[k - 1], c);
    }
  }

  lemma RunCommitKeepsSound(db: Db, c: CreateRequest, runId: string)
    requires SoundRun(db, runId) && c.runId !in db.runs && FreshTimeline(c.result.events)
    ensures SoundRun(RunCommitted(db, c), runId)
  {
    var stopping := c.(progress := StopsAfterRun);
    assert EventRows(stopping) == EventRows(c);
    CreateKeepsSound(db, stopping, runId);
  }

  lemma MarkKeepsSound(db: Db, c: CreateRequest, runId: string)
    requires SoundRun(db, runId) && c.runId in db.runs && (FirstStatus(c) == NeedsReview || Untouched(db, c))
    ensures SoundRun(Marked(db, c), runId)
  {
    RowsAreMembers(db.events, runId);
    var rows := RowsOf(db.events, runId);
    if runId == c.runId && FirstStatus(c) != NeedsReview {
      forall i | 0 <= i < |rows| ensures rows[i].kind != Resume {
        assert rows[i] in db.events;
      }
    }
  }

  lemma CommitKeepsSound(db: Db, commit: Commit, after: Db)
    requires Sound(db) && CommitStep(db, commit, after)
    requires commit.MarkCommit? ==> FirstStatus(commit.c) == NeedsReview || Untouched(db, commit.c)
    ensures Sound(after)
  {
    forall runId ensures SoundRun(after, runId) {
      assert SoundRun(db, runId);
      match commit
      case RunCommit(c) => RunCommitKeepsSound(db, c, runId);
      case MarkCommit(c) => MarkKeepsSound(db, c, runId);
      case Decision(r) =>
        if ResponseTo(db, r) == Accepted {
          var next :| IsNext(db, r.runId, next) && after == AfterAccepted(db, r, next);
          AcceptedKeepsSound(db, r, next, runId);
        }
      case _ => assert after.events == db.events && after.runs == db.runs;
    }
  }

  /** Whatever comes between the commits of create requests: each run's events are numbered 0..k-1, and RESUME occurs
      in them at most once, as the last, and only for a run that is out of review. */
  lemma {:induction false} EventsOverInterleavings(states: seq<Db>, commits: seq<Commit>, k: nat)
    requires IsInterleaving(states, commits) && k < |states|
    ensures Sound(states[k])
    decreases k
  {
    if k == 0 {
      EmptyIsSound();
    } else {
      EventsOverInterleavings(states, commits, k - 1);
      assert CommitAt(states, commits, k - 1);
      if commits[k - 1].MarkCommit? && FirstStatus(commits[k - 1].c) != NeedsReview {
        CreatedBefore(states, commits, k - 1);
        UntouchedUntilMarked(states, commits, commits[k - 1].c, k - 1);
      }
      CommitKeepsSound(states[k - 1], commits[k - 1], states[k]);
    }
  }

  // ----- decisions

  ghost predicate AcceptedAt(states: seq<Db>, commits: seq<Commit>, runId: string, k: nat)
    requires k < |commits| && k < |states|
  {
    commits[k].Decision? && commits[k].r.runId == runId && ResponseTo(states[k], commits[k].r) == Accepted
  }

  lemma DecisionIsLogged(states: seq<Db>, commits: seq<Commit>, runId: string, k: nat)
    requires IsInterleaving(states, commits) && k < |commits| && AcceptedAt(states, commits, runId, k)
    ensures HasResume(states[k + 1], runId)
    ensures runId in states[k].runs && runId in states[k + 1].runs
    ensures states[k + 1].runs[runId] == ResumedRun(states[k].runs[runId], commits[k].r)
  {
    assert CommitAt(states, commits, k);
    var db, q := states[k], commits[k].r;
    var next :| IsNext(db, q.runId, next) && states[k + 1] == AfterAccepted(db, q, next);
    assert states[k + 1].events[|db.events|].kind == Resume;
  }

  lemma {:induction false} ResumeStays(states: seq<Db>, commits: seq<Commit>, runId: string, i: nat, j: nat)
    requires IsInterleaving(states, commits) && i <= j < |states| && HasResume(states[i], runId)
    ensures HasResume(states[j], runId)
  {
    if i < j {
      ResumeStays(states, commits, runId, i, j - 1);
      assert CommitAt(states, commits, j - 1);
      CommitKeepsResume(states[j - 1], commits[j - 1], states[j], runId);
    }
  }

  lemma ResumeMeansSettled(db: Db, runId: string)
    requires SoundRun(db, runId) && HasResume(db, runId)
    ensures Settled(db, runId)
  {
    RowsAreMembers(db.events, runId);
    var i :| 0 <= i < |db.events| && db.events[i].runId == runId && db.events[i].kind == Resume;
    var rows := RowsOf(db.events, runId);
    var j :| 0 <= j < |rows| && rows[j] == db.events[i];
  }

  /** A decided run never goes back into review. */
  lemma DecidedStaysSettled(states: seq<Db>, commits: seq<Commit>, runId: string, i: nat, j: nat)
    requires IsInterleaving(states, commits) && i < |commits| && i < j < |states|
    requires AcceptedAt(states, commits, runId, i)
    ensures Settled(states[j], runId)
  {
    DecisionIsLogged(states, commits, runId, i);
    ResumeStays(states, commits, runId, i + 1, j);
    EventsOverInterleavings(states, commits, j);
    assert SoundRun(states[j], runId);
    ResumeMeansSettled(states[j], runId);
  }

  /** No run is decided twice: after an accepted decision every other one on the run is refused. */
  lemma SecondDecisionIsRefused(states: seq<Db>, commits: seq<Commit>, runId: string, i: nat, j: nat)
    requires IsInterleaving(states, commits) && i < j < |commits| && AcceptedAt(states, commits, runId, i)
    requires commits[j].Decision? && commits[j].r.runId == runId
    ensures ResponseTo(states[j], commits[j].r) in {HttpError(403), HttpError(409)} && states[j + 1] == states[j]
  {
    DecidedStaysSettled(states, commits, runId, i, j);
    assert CommitAt(states, commits, j);
  }

  // ----- the output of a decided run

  ghost predicate MarkedBetween(commits: seq<Commit>, runId: string, i: nat, j: nat)
    requires j <= |commits|
  {
    exists k :: i < k < j && Marks(commits[k], runId)
  }

  /** The output is the decision's, or what the third commit of the run's create request wrote over it. */
  ghost predicate OutputAfter(
    commits: seq<Commit>, runId: string, j: nat, marked: bool, resolved: map<string, Value>,
    output: map<string, Value>)
    requires j <= |commits|
  {
    if marked then exists c :: RunCommit(c) in commits[..j] && c.runId == runId && output == MarkedOutput(c)
    else output == resolved
  }

  lemma {:induction false} RowAfterDecision(states: seq<Db>, commits: seq<Commit>, runId: string, i: nat, j: nat)
    requires IsInterleaving(states, commits) && i < |commits| && i < j < |states|
    requires AcceptedAt(states, commits, runId, i)
    ensures runId in states[i].runs && runId in states[j].runs
    ensures states[j].runs[runId].status == DecidedStatus(commits[i].r)
    ensures OutputAfter(commits, runId, j, MarkedBetween(commits, runId, i, j),
                        ResolvedOutput(states[i].runs[runId].output, commits[i].r), states[j].runs[runId].output)
    decreases j
  {
    if j == i + 1 {
      DecisionIsLogged(states, commits, runId, i);
    } else {
      RowAfterDecision(states, commits, runId, i, j - 1);
      DecidedStaysSettled(states, commits, runId, i, j - 1);
      DecidedStaysSettled(states, commits, runId, i, j);
      assert CommitAt(states, commits, j - 1);
      SettledStep(states[j - 1], commits[j - 1], states[j], runId);
      OneMoreMark(commits, runId, i, j);
      if Marks(commits[j - 1], runId) {
        CreatedBefore(states, commits, j - 1);
        OneMoreCommit(commits, j, RunCommit(commits[j - 1].c));
      } else if MarkedBetween(commits, runId, i, j - 1) {
        var c :| RunCommit(c) in commits[..j - 1] && c.runId == runId &&
          states[j - 1].runs[runId].output == MarkedOutput(c);
        OneMoreCommit(commits, j, RunCommit(c));
      }
    }
  }

  lemma OneMoreMark(commits: seq<Commit>, runId: string, i: nat, j: nat)
    requires i + 1 < j <= |commits|
    ensures MarkedBetween(commits, runId, i, j) <==>
            MarkedBetween(commits, runId, i, j - 1) || Marks(commits[j - 1], runId)
  {
    if MarkedBetween(commits, runId, i, j) {
      var k :| i < k < j && Marks(commits[k], runId);
      assert k < j - 1 || k == j - 1;
    }
  }

  /** A decided run keeps its status for ever. Its output stays what the decision made of it exactly as long as its
      create request does not commit for the third time; after that it is what the agent reported, without the
      resolution and without an edited answer. */
  lemma ResolutionSurvivesExactlyWhen(states: seq<Db>, commits: seq<Commit>, runId: string, i: nat, j: nat)
    requires IsInterleaving(states, commits) && i < |commits| && i < j < |states|
    requires AcceptedAt(states, commits, runId, i)
    ensures runId in states[i].runs && runId in states[j].runs
    ensures states[j].runs[runId].status == DecidedStatus(commits[i].r)
    ensures states[j].runs[runId].output == ResolvedOutput(states[i].runs[runId].output, commits[i].r) <==>
            !MarkedBetween(commits, runId, i, j)
    ensures MarkedBetween(commits, runId, i, j) ==>
              "resolution" !in states[j].runs[runId].output &&
              exists c :: RunCommit(c) in commits[..j] && c.runId == runId &&
                states[j].runs[runId].output == MarkedOutput(c)
  {
    RowAfterDecision(states, commits, runId, i, j);
    if MarkedBetween(commits, runId, i, j) {
      var c :| RunCommit(c) in commits[..j] && c.runId == runId && states[j].runs[runId].output == MarkedOutput(c);
      CreatedIsThere(states, commits, c, j);
      assert "resolution" in ResolvedOutput(states[i].runs[runId].output, commits[i].r);
      assert "resolution" !in MarkedOutput(c);
    }
  }

  // ----- the cases of a decided run

  /** The commit files a case for the run in the tenant. */
  ghost predicate Files(commit: Commit, runId: string, tenant: string) {
    match commit
    case CaseCommit(c) => c.runId == runId
    case Posting(i) => i.tenant == tenant && i.payloadRunId == Some(runId) && runId != ""
    case _ => false
  }

  ghost predicate FiledBetween(commits: seq<Commit>, runId: string, tenant: string, i: nat, j: nat)
    requires j <= |commits|
  {
    exists k :: i < k < j && Files(commits[k], runId, tenant)
  }

  lemma CommitKeepsKeys(db: Db, commit: Commit, after: Db)
    requires KeysAgree(db) && CommitStep(db, commit, after)
    ensures KeysAgree(after)
  {
    if commit.Decision? && ResponseTo(db, commit.r) == Accepted {
      var next :| IsNext(db, commit.r.runId, next) && after == AfterAccepted(db, commit.r, next);
    }
  }

  lemma {:induction false} KeysOverInterleavings(states: seq<Db>, commits: seq<Commit>, k: nat)
    requires IsInterleaving(states, commits) && k < |states|
    ensures KeysAgree(states[k])
  {
    if k > 0 {
      KeysOverInterleavings(states, commits, k - 1);
      assert CommitAt(states, commits, k - 1);
      CommitKeepsKeys(states[k - 1], commits[k - 1], states[k]);
    }
  }

  /** Nothing but a decision on the run closes its cases, and only the commits that file one open one. */
  lemma OpenCaseStep(db: Db, commit: Commit, after: Db, runId: string, tenant: string)
    requires KeysAgree(db) && CommitStep(db, commit, after)
    requires commit.Decision? && ResponseTo(db, commit.r) == Accepted ==> commit.r.runId != runId
    requires commit.CaseCommit? && commit.c.runId == runId ==> commit.c.tenant == tenant
    ensures HasOpenCase(after, runId, tenant) <==> HasOpenCase(db, runId, tenant) || Files(commit, runId, tenant)
  {
    if commit.Decision? && ResponseTo(db, commit.r) == Accepted {
      var next :| IsNext(db, commit.r.runId, next) && after == AfterAccepted(db, commit.r, next);
    }
    if HasOpenCase(db, runId, tenant) {
      CaseKept(db, after, runId, tenant);
    }
    if HasOpenCase(after, runId, tenant) {
      var id :| id in after.cases && LinkedByKey(after.cases[id], tenant, runId);
      assert id in db.cases && after.cases[id] == db.cases[id] ==> LinkedByKey(db.cases[id], tenant, runId);
    }
    if Files(commit, runId, tenant) {
      var id := if commit.CaseCommit? then commit.c.caseId else commit.i.caseId;
      assert LinkedByKey(after.cases[id], tenant, runId);
    }
  }

  /** An accepted decision leaves no open case with the run's key in its tenant. */
  lemma DecisionClosesCases(db: Db, q: ResumeRequest, after: Db)
    requires ResponseTo(db, q) == Accepted && AfterResume(db, q, after)
    ensures !HasOpenCase(after, q.runId, db.runs[q.runId].tenant)
  {
    var tenant := db.runs[q.runId].tenant;
    var next :| IsNext(db, q.runId, next) && after == AfterAccepted(db, q, next);
    forall id | id in after.cases ensures !LinkedByKey(after.cases[id], tenant, q.runId) {
      if LinkedByKey(db.cases[id], tenant, q.runId) {
        var byKey := set x | x in db.cases && LinkedByKey(db.cases[x], tenant, q.runId);
        assert id in byKey;
        assert id in LinkedCases(db.cases, tenant, q.runId);
      }
    }
  }

  lemma OneMoreFiled(commits: seq<Commit>, runId: string, tenant: string, i: nat, j: nat)
    requires i + 1 < j <= |commits|
    ensures FiledBetween(commits, runId, tenant, i, j) <==>
            FiledBetween(commits, runId, tenant, i, j - 1) || Files(commits[j - 1], runId, tenant)
  {
    if FiledBetween(commits, runId, tenant, i, j) {
      var k :| i < k < j && Files(commits[k], runId, tenant);
      assert k < j - 1 || k == j - 1;
    }
  }

  lemma {:induction false} TenantStays(states: seq<Db>, commits: seq<Commit>, runId: string, i: nat, j: nat)
    requires IsInterleaving(states, commits) && i <= j < |states| && runId in states[i].runs
    ensures runId in states[j].runs && states[j].runs[runId].tenant == states[i].runs[runId].tenant
  {
    if i < j {
      TenantStays(states, commits, runId, i, j - 1);
      assert CommitAt(states, commits, j - 1);
      CommitKeepsRun(states[j - 1], commits[j - 1], states[j], runId);
    }
  }

  /** The second commit of a create request files the case in the run's tenant. */
  lemma FiledInItsTenant(states: seq<Db>, commits: seq<Commit>, runId: string, i: nat, k: nat)
    requires IsInterleaving(states, commits) && i <= k < |commits| && runId in states[i].runs
    requires commits[k].CaseCommit? && commits[k].c.runId == runId
    ensures commits[k].c.tenant == states[i].runs[runId].tenant
  {
    CreatedBefore(states, commits, k);
    CreatedIsThere(states, commits, commits[k].c, k);
    TenantStays(states, commits, runId, i, k);
  }

  /** A decided run has an open case in its tenant exactly if one was filed after the decision: by the second commit
      of its create request, or by somebody who posted one. */
  lemma {:induction false} OpenCaseAfterDecisionExactlyWhen(
    states: seq<Db>, commits: seq<Commit>, runId: string, i: nat, j: nat)
    requires IsInterleaving(states, commits) && i < |commits| && i < j < |states|
    requires AcceptedAt(states, commits, runId, i)
    ensures runId in states[i].runs
    ensures var tenant := states[i].runs[runId].tenant;
            HasOpenCase(states[j], runId, tenant) <==> FiledBetween(commits, runId, tenant, i, j)
    decreases j
  {
    DecisionIsLogged(states, commits, runId, i);
    var tenant := states[i].runs[runId].tenant;
    assert CommitAt(states, commits, j - 1);
    if j == i + 1 {
      DecisionClosesCases(states[i], commits[i].r, states[j]);
    } else {
      OpenCaseAfterDecisionExactlyWhen(states, commits, runId, i, j - 1);
      KeysOverInterleavings(states, commits, j - 1);
      DecidedStaysSettled(states, commits, runId, i, j - 1);
      if commits[j - 1].CaseCommit? && commits[j - 1].c.runId == runId {
        FiledInItsTenant(states, commits, runId, i, j - 1);
      }
      OpenCaseStep(states[j - 1], commits[j - 1], states[j], runId, tenant);
      OneMoreFiled(commits, runId, tenant, i, j);
    }
  }

  // ----- the cases of a run in review

  lemma {:induction false} FiledStaysOpen(states: seq<Db>, commits: seq<Commit>, c: CreateRequest, k: nat)
    requires IsInterleaving(states, commits) && k < |states| && CaseCommit(c) in commits[..k]
    requires !HasResume(states[k], c.runId)
    ensures HasOpenCase(states[k], c.runId, c.tenant)
  {
    var commit := commits[k - 1];
    OneMoreCommit(commits, k, CaseCommit(c));
    assert CommitAt(states, commits, k - 1);
    KeysOverInterleavings(states, commits, k - 1);
    if commit.Decision? && commit.r.runId == c.runId && ResponseTo(states[k - 1], commit.r) == Accepted {
      DecisionIsLogged(states, commits, c.runId, k - 1);
    }
    if CaseCommit(c) in commits[..k - 1] {
      if HasResume(states[k - 1], c.runId) {
        CommitKeepsResume(states[k - 1], commit, states[k], c.runId);
      }
      FiledStaysOpen(states, commits, c, k - 1);
      if commit.CaseCommit? && commit.c.runId == c.runId {
        var m :| 0 <= m < k - 1 && commits[m] == CaseCommit(c);
        CreatedBefore(states, commits, m);
        CreatedIsThere(states, commits, c, m);
        FiledInItsTenant(states, commits, c.runId, m, k - 1);
      }
    }
    OpenCaseStep(states[k - 1], commit, states[k], c.runId, c.tenant);
  }

  /** A run in review has an open case in its tenant, once its create request has committed for the second time. */
  lemma ReviewHasItsCase(states: seq<Db>, commits: seq<Commit>, c: CreateRequest, k: nat)
    requires IsInterleaving(states, commits) && k < |states| && CaseCommit(c) in commits[..k]
    requires c.runId in states[k].runs && InReview(states[k].runs[c.runId].status)
    ensures HasOpenCase(states[k], c.runId, c.tenant)
  {
    EventsOverInterleavings(states, commits, k);
    assert SoundRun(states[k], c.runId);
    if HasResume(states[k], c.runId) {
      ResumeMeansSettled(states[k], c.runId);
    }
    FiledStaysOpen(states, commits, c, k);
  }
}
