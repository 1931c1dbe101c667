/** Interleaved requests whose created runs come from the agents, and what can go wrong in them. */
module AgentInterleavings {
  import opened Values
  import opened GraphEngine
  import opened RunLifecycle
  import opened LifecycleHistory
  import opened LifecycleInterleaved
  import opened AgentHistories
  import opened LifecycleExhibits
  import T = AgentTimelines

  ghost predicate AgentCommitAt(states: seq<Db>, commits: seq<Commit>, k: nat)
    requires k < |commits| && k + 1 < |states|
  {
    InTurn(commits, k) &&
    match commits[k]
    case RunCommit(c) =>
      c.runId !in states[k].runs && FromAnAgent(c.result) && states[k + 1] == RunCommitted(states[k], c)
    case _ => CommitStep(states[k], commits[k], states[k + 1])
  }

  ghost predicate IsAgentInterleaving(states: seq<Db>, commits: seq<Commit>) {
    |states| == |commits| + 1 && states[0] == EMPTY &&
    forall k :: 0 <= k < |commits| ==> AgentCommitAt(states, commits, k)
  }

  lemma FromAnAgentIsReported(r: AgentResult)
    requires FromAnAgent(r)
    ensures Reported(r)
  {
    var a: Agent :| DeliveredBy(r, a);
    AgentEventsAreFresh(r, a);
    AgentResultsAreReported(r, a);
  }

  lemma AgentInterleavingIsInterleaving(states: seq<Db>, commits: seq<Commit>)
    requires IsAgentInterleaving(states, commits)
    ensures IsInterleaving(states, commits)
  {
    forall k | 0 <= k < |commits| ensures CommitAt(states, commits, k) {
      assert AgentCommitAt(states, commits, k);
      if commits[k].RunCommit? {
        FromAnAgentIsReported(commits[k].c.result);
      }
    }
  }

  /** Whatever comes between the commits of create requests for the agents' runs: each run's events are numbered
      0..k-1, and RESUME occurs in them at most once, as the last. */
  lemma EventsOverAgentInterleaving(states: seq<Db>, commits: seq<Commit>, k: nat)
    requires IsAgentInterleaving(states, commits) && k < |states|
    ensures Sound(states[k])
  {
    AgentInterleavingIsInterleaving(states, commits);
    EventsOverInterleavings(states, commits, k);
  }

  /** No run of an agent is decided twice, wherever the decisions come between the commits. */
  lemma NoAgentRunIsDecidedTwice(states: seq<Db>, commits: seq<Commit>, runId: string, i: nat, j: nat)
    requires IsAgentInterleaving(states, commits) && i < j < |commits|
    requires AcceptedAt(states, commits, runId, i)
    ensures !AcceptedAt(states, commits, runId, j)
  {
    AgentInterleavingIsInterleaving(states, commits);
    if commits[j].Decision? && commits[j].r.runId == runId {
      SecondDecisionIsRefused(states, commits, runId, i, j);
    }
  }

  // ----- one of the agents' runs that wait for a review

  const UNMATCHED := map[
    "code" := Str("unknown"), "queue_name" := Str("ops-review"),
    "reason" := Str("未识别到具体异常类别，默认转运营人工复核以便进一步调查。"), "matched_signals" := List([])]

  /** The anomaly graph, for a question in which it recognises nothing. */
  function AnomalyGraph(): Graph {
    Graph(
      map[
        "classify" := (step: nat, s: GraphState) =>
          Returned(NodeResult(
            Some("route"),
            [(Scratchpad, Dict(map["classification" := Dict(map["matched" := Bool(false), "confidence" := Real(0.35),
                                                                "output" := Dict(UNMATCHED)])]))],
            [])),
        "route" := (step: nat, s: GraphState) =>
          Returned(NodeResult(
            None,
            [(Scratchpad, Dict(map["final" := Dict(map["output" := Dict(UNMATCHED), "confidence" := Real(0.35)])]))],
            []))],
      "classify")
  }

  ghost function AnomalyResult(initial: GraphState): AgentResult {
    AgentResult(NeedsReview, 0.35, true, UNMATCHED, RunOf(AnomalyGraph(), initial, 4).events, None)
  }

  /** The requests of `LifecycleExhibits` go wrong with every result like this one. */
  lemma AnomalyWaits(initial: GraphState)
    ensures FromAnAgent(AnomalyResult(initial)) && Waiting(AnomalyResult(initial))
  {
    var r, a := AnomalyResult(initial), TriageRun(AnomalyGraph(), initial, 4, NeedsReview);
    AnomalyGraphIsSilent();
    assert DeliveredBy(r, a);
    FromAnAgentIsReported(r);
  }

  lemma AnomalyGraphIsSilent()
    ensures T.Silent(AnomalyGraph())
  {}

  /** An interleaving in which no other run is created than one of the agents' is one of theirs. */
  lemma InterleavingOfAgent(states: seq<Db>, commits: seq<Commit>, r: AgentResult)
    requires IsInterleaving(states, commits) && FromAnAgent(r) && OnlyCreates(commits, r)
    ensures IsAgentInterleaving(states, commits)
  {
    forall k | 0 <= k < |commits| ensures AgentCommitAt(states, commits, k) {
      assert CommitAt(states, commits, k);
    }
  }

  /** So every agent's run that waits for a review can lose an edit in such an interleaving. */
  lemma AgentEditIsLost(r: AgentResult) returns (states: seq<Db>, commits: seq<Commit>)
    requires FromAnAgent(r) && Waiting(r)
    ensures IsAgentInterleaving(states, commits) && LosesEdit(states, commits, r)
  {
    states, commits := EditIsLost(r);
    InterleavingOfAgent(states, commits, r);
  }

  /** And its case can be filed too late. */
  lemma AgentCaseIsFiledTooLate(r: AgentResult) returns (states: seq<Db>, commits: seq<Commit>)
    requires FromAnAgent(r) && Waiting(r)
    ensures IsAgentInterleaving(states, commits) && FilesTooLate(states, commits, r)
  {
    states, commits := CaseIsFiledTooLate(r);
    InterleavingOfAgent(states, commits, r);
  }
}
