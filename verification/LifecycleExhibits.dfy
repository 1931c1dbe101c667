/** Requests at which a decision on a run does not do what is meant. */
module LifecycleExhibits {
  import opened Values
  import opened GraphEngine
  import opened RunLifecycle
  import opened LifecycleHistory
  import opened LifecycleInterleaved

  // ----- a run that waits for a review

  /** The result of an agent that asks for a review, as the anomaly agent always does. */
  ghost predicate Waiting(r: AgentResult) {
    Reported(r) && r.status == NeedsReview && r.requiresReview
  }

  /** Its create request in tenant a. */
  function Create(r: AgentResult, progress: Progress): CreateRequest {
    CreateRequest("run", "thread", "case", "a", r, None, progress)
  }

  function Approval(): ResumeRequest {
    ResumeRequest("run", Approve, "", None, "reviewer", (tenant: string) => true)
  }

  function EditedTo(answer: string): ResumeRequest {
    ResumeRequest("run", Edit, "", Some(answer), "reviewer", (tenant: string) => true)
  }

  /** The number of the run's next event is the number of those that it has. */
  lemma NextOfWaiting(db: Db, c: CreateRequest)
    requires FreshTimeline(c.result.events) && db.events == EventRows(c)
    ensures IsNext(db, c.runId, |c.result.events|)
  {
    var n, rows := |c.result.events|, EventRows(c);
    if n == 0 {
      assert IsLargest(db.events, c.runId, None);
    } else {
      assert rows[n - 1].runId == c.runId && rows[n - 1].sequence == n - 1;
      assert IsLargest(db.events, c.runId, Some(n - 1));
    }
  }

  /** A decision on the run is accepted, whatever cases there are. */
  lemma DecisionIsAccepted(r: AgentResult, db: Db, q: ResumeRequest)
    requires Waiting(r) && (q == Approval() || q == EditedTo("corrected"))
    requires "run" in db.runs && db.runs["run"].status == NeedsReview && db.events == EventRows(Create(r, Finishes))
    ensures ResponseTo(db, q) == Accepted && AfterResume(db, q, AfterAccepted(db, q, |r.events|))
  {
    NextOfWaiting(db, Create(r, Finishes));
  }

  // ----- one request after another

  /** A request that stops right after its first commit leaves a run in review without a case. */
  lemma StoppedCreateLeavesNoCase(r: AgentResult) returns (states: seq<Db>, requests: seq<Request>)
    requires Waiting(r)
    ensures IsHistory(states, requests) && requests == [Creating(Create(r, StopsAfterRun))] && states[0] == EMPTY
    ensures "run" in states[1].runs && InReview(states[1].runs["run"].status)
    ensures !HasOpenCase(states[1], "run", states[1].runs["run"].tenant)
  {
    var c := Create(r, StopsAfterRun);
    CreatedWithoutCaseExactlyWhen(EMPTY, c);
    states, requests := [EMPTY, AfterCreate(EMPTY, c)], [Creating(c)];
    assert StepAt(states, requests, 0);
  }

  ghost function Posted(r: AgentResult): Db {
    AfterIngest(AfterCreate(EMPTY, Create(r, Finishes)), IngestRequest("posted", "b", Some("run")))
  }

  lemma PostedWaits(r: AgentResult)
    requires Waiting(r)
    ensures ResponseTo(Posted(r), Approval()) == Accepted
    ensures AfterResume(Posted(r), Approval(), AfterAccepted(Posted(r), Approval(), |r.events|))
  {
    assert [] + EventRows(Create(r, Finishes)) == EventRows(Create(r, Finishes));
    DecisionIsAccepted(r, Posted(r), Approval());
  }

  lemma CasesOfPosted(r: AgentResult)
    requires Waiting(r)
    ensures "run" in Posted(r).runs
    ensures var cases := AfterAccepted(Posted(r), Approval(), |r.events|).cases;
            && "case" in cases && cases["case"].status == CaseResolved
            && "posted" in cases && cases["posted"].status == CaseOpen && cases["posted"].runId == Some("run")
  {
    assert LinkedByKey(Posted(r).cases["case"], "a", "run");
    assert "case" in LinkedCases(Posted(r).cases, "a", "run");
  }

  lemma ThreeRequests(s: seq<Db>, x: Request, y: Request, z: Request)
    requires |s| == 4 && Admissible(s[0], x) && Step(s[0], x, s[1])
    requires Admissible(s[1], y) && Step(s[1], y, s[2]) && Admissible(s[2], z) && Step(s[2], z, s[3])
    ensures IsHistory(s, [x, y, z])
  {
    forall k | 0 <= k < 3 ensures StepAt(s, [x, y, z], k) {
      assert k == 0 || k == 1 || k == 2;
    }
  }

  /** A run of tenant a, a case that tenant b posts for it, and the decision on the run: the run's own case is
      resolved, and the other one carries the run's key and stays open. */
  lemma PostedCaseStaysOpen(r: AgentResult) returns (states: seq<Db>, requests: seq<Request>)
    requires Waiting(r)
    ensures IsHistory(states, requests) && states[0] == EMPTY
    ensures var i := IngestRequest("posted", "b", Some("run"));
            requests == [Creating(Create(r, Finishes)), Ingesting(i), Resuming(Approval())]
    ensures ResponseTo(states[2], Approval()) == Accepted
    ensures "case" in states[3].cases && states[3].cases["case"].status == CaseResolved
    ensures "posted" in states[3].cases && states[3].cases["posted"].runId == Some("run")
    ensures states[3].cases["posted"].status == CaseOpen
  {
    PostedWaits(r);
    CasesOfPosted(r);
    var c, i := Create(r, Finishes), IngestRequest("posted", "b", Some("run"));
    states := [EMPTY, AfterCreate(EMPTY, c), Posted(r), AfterAccepted(Posted(r), Approval(), |r.events|)];
    requests := [Creating(c), Ingesting(i), Resuming(Approval())];
    ThreeRequests(states, Creating(c), Ingesting(i), Resuming(Approval()));
  }

  // ----- commits in between

  lemma FourCommits(states: seq<Db>, commits: seq<Commit>)
    requires |states| == 5 && |commits| == 4 && states[0] == EMPTY
    requires CommitAt(states, commits, 0) && CommitAt(states, commits, 1)
    requires CommitAt(states, commits, 2) && CommitAt(states, commits, 3)
    ensures IsInterleaving(states, commits)
  {
    forall k | 0 <= k < 4 ensures CommitAt(states, commits, k) {
      assert k == 0 || k == 1 || k == 2 || k == 3;
    }
  }

  ghost function Committed(r: AgentResult): Db {
    RunCommitted(EMPTY, Create(r, Finishes))
  }

  lemma CommittedWaits(r: AgentResult)
    requires Waiting(r)
    ensures var db := Committed(r);
            && "run" in db.runs && db.runs["run"].status == NeedsReview && db.runs["run"].tenant == "a"
            && db.events == EventRows(Create(r, Finishes))
    ensures ShouldCreateReviewCase(r.confidence, ReviewRequired(Create(r, Finishes)), None)
  {
    assert [] + EventRows(Create(r, Finishes)) == EventRows(Create(r, Finishes));
  }

  ghost function Filed(r: AgentResult): Db {
    CaseCommitted(Committed(r), Create(r, Finishes))
  }

  lemma EditOfFiled(r: AgentResult)
    requires Waiting(r)
    ensures ResponseTo(Filed(r), EditedTo("corrected")) == Accepted
    ensures AfterResume(Filed(r), EditedTo("corrected"), AfterAccepted(Filed(r), EditedTo("corrected"), |r.events|))
    ensures var decided := AfterAccepted(Filed(r), EditedTo("corrected"), |r.events|);
            && "answer" in decided.runs["run"].output
            && decided.runs["run"].output["answer"] == Str("corrected")
            && Marked(decided, Create(r, Finishes)).runs["run"].status == RunCompleted
            && Marked(decided, Create(r, Finishes)).runs["run"].output == MarkedOutput(Create(r, Finishes))
  {
    CommittedWaits(r);
    DecisionIsAccepted(r, Filed(r), EditedTo("corrected"));
  }

  /** The run with this result is the only one that is created. */
  ghost predicate OnlyCreates(commits: seq<Commit>, r: AgentResult) {
    forall k :: 0 <= k < |commits| && commits[k].RunCommit? ==> commits[k].c.result == r
  }

  /** An accepted edit, and at the end a completed run with the agent's output, without edit and resolution. */
  ghost predicate LosesEdit(states: seq<Db>, commits: seq<Commit>, r: AgentResult) {
    && |states| == 5
    && commits == [RunCommit(Create(r, Finishes)), CaseCommit(Create(r, Finishes)),
                   Decision(EditedTo("corrected")), MarkCommit(Create(r, Finishes))]
    && AcceptedAt(states, commits, "run", 2)
    && "run" in states[3].runs && "run" in states[4].runs
    && "answer" in states[3].runs["run"].output && states[3].runs["run"].output["answer"] == Str("corrected")
    && states[4].runs["run"].status == RunCompleted && "resolution" !in states[4].runs["run"].output
    && states[4].runs["run"].output == r.output["review_case_id" := Str("case")]
  }

  /** A decision between the second and the third commit: the answer is edited, and then the third commit writes the
      agent's output over it. */
  lemma EditIsLost(r: AgentResult) returns (states: seq<Db>, commits: seq<Commit>)
    requires Waiting(r)
    ensures IsInterleaving(states, commits) && OnlyCreates(commits, r) && LosesEdit(states, commits, r)
  {
    var c, q := Create(r, Finishes), EditedTo("corrected");
    CommittedWaits(r);
    EditOfFiled(r);
    var decided := AfterAccepted(Filed(r), q, |r.events|);
    states := [EMPTY, Committed(r), Filed(r), decided, Marked(decided, c)];
    commits := [RunCommit(c), CaseCommit(c), Decision(q), MarkCommit(c)];
    assert commits[..1][0] == RunCommit(c) && commits[..3][1] == CaseCommit(c);
    FourCommits(states, commits);
  }

  ghost function FiledLate(r: AgentResult): Db
    requires "run" in Committed(r).runs
  {
    CaseCommitted(AfterAccepted(Committed(r), Approval(), |r.events|), Create(r, Finishes))
  }

  lemma ApprovalOfCommitted(r: AgentResult)
    requires Waiting(r)
    ensures ResponseTo(Committed(r), Approval()) == Accepted
    ensures AfterResume(Committed(r), Approval(), AfterAccepted(Committed(r), Approval(), |r.events|))
    ensures "case" !in AfterAccepted(Committed(r), Approval(), |r.events|).cases && "run" in FiledLate(r).runs
  {
    CommittedWaits(r);
    DecisionIsAccepted(r, Committed(r), Approval());
  }

  lemma FiledAfterDecision(states: seq<Db>, commits: seq<Commit>, runId: string, i: nat, k: nat)
    requires IsInterleaving(states, commits) && i < k < |commits| && AcceptedAt(states, commits, runId, i)
    requires commits[k].CaseCommit? && commits[k].c.runId == runId
    ensures var last := states[|commits|];
            Settled(last, runId) && HasOpenCase(last, runId, last.runs[runId].tenant)
  {
    var n := |commits|;
    DecidedStaysSettled(states, commits, runId, i, n);
    OpenCaseAfterDecisionExactlyWhen(states, commits, runId, i, n);
    TenantStays(states, commits, runId, i, n);
    assert Files(commits[k], runId, states[i].runs[runId].tenant);
  }

  /** An accepted approval, and at the end a decided run with an open case in its tenant. */
  ghost predicate FilesTooLate(states: seq<Db>, commits: seq<Commit>, r: AgentResult) {
    && |states| == 5
    && commits == [RunCommit(Create(r, Finishes)), Decision(Approval()), CaseCommit(Create(r, Finishes)),
                   MarkCommit(Create(r, Finishes))]
    && AcceptedAt(states, commits, "run", 1)
    && Settled(states[4], "run") && HasOpenCase(states[4], "run", states[4].runs["run"].tenant)
  }

  /** A decision between the first and the second commit: the second then files a case for a run that is decided. */
  lemma CaseIsFiledTooLate(r: AgentResult) returns (states: seq<Db>, commits: seq<Commit>)
    requires Waiting(r)
    ensures IsInterleaving(states, commits) && OnlyCreates(commits, r) && FilesTooLate(states, commits, r)
  {
    var c, q := Create(r, Finishes), Approval();
    CommittedWaits(r);
    ApprovalOfCommitted(r);
    var decided := AfterAccepted(Committed(r), q, |r.events|);
    states := [EMPTY, Committed(r), decided, FiledLate(r), Marked(FiledLate(r), c)];
    commits := [RunCommit(c), Decision(q), CaseCommit(c), MarkCommit(c)];
    assert commits[..2][0] == RunCommit(c) && commits[..3][2] == CaseCommit(c);
    FourCommits(states, commits);
    FiledAfterDecision(states, commits, "run", 1, 2);
  }
}
