/** The run tables over histories in which every created run comes from one of the agents. */
module AgentHistories {
  import opened GraphEngine
  import opened PolicyGraph
  import opened PolicyRuns
  import opened RunLifecycle
  import opened LifecycleHistory
  import opened AgentTimelines
  import P = PolicyProfiles
  import S = PolicySupervisor
  import A = SupervisorAgent

  /** A run of the supervisor; of the policy graph, to which the supervisor falls back when anything in it raises; or
      of the ticket or the anomaly graph, which always ask for a review. */
  datatype Agent =
    | SupervisorRun(profiles: seq<P.Profile>, tool: S.Tool, ctx: S.Context, thread: A.Thread)
    | PolicyRun(w: World, tenantId: string, customerId: string, question: string, isChinese: bool, threshold: real)
    | TriageRun(g: Graph, initial: GraphState, maxSteps: int, status: RunStatus)

  ghost predicate Proper(a: Agent) {
    match a
    case SupervisorRun(_, tool, _, _) => QuietTool(tool)
    case PolicyRun(_, _, _, _, _, _) => true
    case TriageRun(g, _, _, status) => Silent(g) && status in {RunCompleted, NeedsReview}
  }

  ghost function RunOfPolicy(a: Agent): RunResult
    requires a.PolicyRun?
  {
    RunOf(BuildPolicyGraph(a.w), InitialState(a.tenantId, a.customerId, a.question, a.isChinese), MAX_REACT_STEPS)
  }

  ghost function EventsOf(a: Agent): seq<Event> {
    match a
    case SupervisorRun(profiles, tool, ctx, thread) => A.Supervised(profiles, tool, ctx, thread).events
    case PolicyRun(_, _, _, _, _, _) => RunOfPolicy(a).events
    case TriageRun(g, initial, maxSteps, _) => RunOf(g, initial, maxSteps).events
  }

  function StatusOf(name: string): RunStatus {
    if name == "completed" then RunCompleted else if name == "needs_review" then NeedsReview else OtherStatus(name)
  }

  /** The status and the review flag that the agent reports. */
  ghost function ReviewOf(a: Agent): (RunStatus, bool) {
    match a
    case SupervisorRun(profiles, tool, ctx, thread) =>
      var h := A.Supervised(profiles, tool, ctx, thread);
      (StatusOf(h.Status()), h.RequiresReview())
    case PolicyRun(w, _, _, _, _, threshold) =>
      var e := RunResultToExecution(w.settings.python, RunOfPolicy(a), threshold);
      (StatusOf(e.status), e.requiresHumanReview)
    case TriageRun(_, _, _, status) => (status, true)
  }

  /** The keys of the output that the agent reports. */
  function OutputKeys(a: Agent): set<string> {
    match a
    case SupervisorRun(_, _, _, _) =>
      {"answer", "confidence", "citations", "coverage", "missing_dimensions", "guardrail_events", "interrupt",
       "retrieval_trace", "specialist", "specialist_plan", "profile_reports"}
    case PolicyRun(_, _, _, _, _, _) => {"answer", "citations", "retrieval_trace"}
    case TriageRun(_, _, _, _) => {"code", "queue_name", "reason", "matched_signals"}
  }

  /** The keys that the handler adds before it commits the run. */
  const HANDLER_KEYS: set<string> := {"rule_result", "orchestration_trace"}

  /** The result is what the agent reports, with the handler's own entries in the output. */
  ghost predicate DeliveredBy(r: AgentResult, a: Agent) {
    && Proper(a)
    && r.events == EventsOf(a)
    && (r.status, r.requiresReview) == ReviewOf(a)
    && r.output.Keys <= OutputKeys(a) + HANDLER_KEYS
  }

  ghost predicate FromAnAgent(r: AgentResult) {
    exists a: Agent :: DeliveredBy(r, a)
  }

  lemma {:induction false} AgentEventsAreFresh(r: AgentResult, a: Agent)
    requires DeliveredBy(r, a)
    ensures FreshTimeline(r.events)
  {
    match a
    case SupervisorRun(profiles, tool, ctx, thread) => SupervisorTimeline(profiles, tool, ctx, thread);
    case PolicyRun(w, tenantId, customerId, question, isChinese, _) =>
      PolicyGraphTimeline(w, tenantId, customerId, question, isChinese);
    case TriageRun(g, initial, maxSteps, _) => SilentGraphTimeline(g, initial, maxSteps);
  }

  lemma {:induction false} AgentResultsAreCoherent(r: AgentResult, a: Agent)
    requires DeliveredBy(r, a)
    ensures Coherent(r)
  {
    match a
    case SupervisorRun(profiles, tool, ctx, thread) => SupervisorIsCoherent(A.Supervised(profiles, tool, ctx, thread));
    case PolicyRun(w, tenantId, customerId, question, isChinese, threshold) =>
      ReportedStatus(w, tenantId, customerId, question, isChinese, threshold);
      PolicyIsCoherent(RunOfPolicy(a), RunResultToExecution(w.settings.python, RunOfPolicy(a), threshold), threshold);
    case TriageRun(_, _, _, _) =>
  }

  lemma NobodyResolves(a: Agent)
    ensures "resolution" !in OutputKeys(a) && "resolution" !in HANDLER_KEYS
  {}

  lemma NobodyAwaits(a: Agent)
    requires Proper(a)
    ensures ReviewOf(a).0 != AwaitingReview
  {}

  /** No agent reports "awaiting review", and none a resolution. */
  lemma AgentResultsAreReported(r: AgentResult, a: Agent)
    requires DeliveredBy(r, a)
    ensures r.status != AwaitingReview && "resolution" !in r.output
  {
    NobodyResolves(a);
    NobodyAwaits(a);
  }

  lemma SupervisorIsCoherent(h: A.Handover)
    ensures InReview(StatusOf(h.Status())) ==> h.RequiresReview()
  {}

  lemma PolicyIsCoherent(r: RunResult, e: Execution, threshold: real)
    requires ReportedAs(r, e, threshold)
    ensures InReview(StatusOf(e.status)) ==> e.requiresHumanReview
  {}

  // ----- histories

  /** New ids are new, and created runs bring what an agent reports. */
  ghost predicate AgentRequest(db: Db, q: Request) {
    match q
    case Creating(c) => c.runId !in db.runs && c.caseId !in db.cases && FromAnAgent(c.result)
    case Resuming(_) => true
    case Ingesting(i) => i.caseId !in db.cases
  }

  ghost predicate AgentStepAt(states: seq<Db>, requests: seq<Request>, k: nat)
    requires k < |requests| && k + 1 < |states|
  {
    AgentRequest(states[k], requests[k]) && Step(states[k], requests[k], states[k + 1])
  }

  ghost predicate IsAgentHistory(states: seq<Db>, requests: seq<Request>) {
    |states| == |requests| + 1 &&
    forall k :: 0 <= k < |requests| ==> AgentStepAt(states, requests, k)
  }

  lemma AgentResultIsAdmissible(r: AgentResult)
    requires FromAnAgent(r)
    ensures FreshTimeline(r.events) && Coherent(r)
  {
    var a: Agent :| DeliveredBy(r, a);
    AgentEventsAreFresh(r, a);
    AgentResultsAreCoherent(r, a);
  }

  lemma AgentHistoryIsHistory(states: seq<Db>, requests: seq<Request>)
    requires IsAgentHistory(states, requests)
    ensures IsHistory(states, requests)
    ensures forall i :: 0 <= i < |requests| && requests[i].Creating? ==> Coherent(requests[i].c.result)
  {
    forall k | 0 <= k < |requests|
      ensures StepAt(states, requests, k)
      ensures requests[k].Creating? ==> Coherent(requests[k].c.result)
    {
      assert AgentStepAt(states, requests, k);
      if requests[k].Creating? {
        AgentResultIsAdmissible(requests[k].c.result);
      }
    }
  }

  /** Over every history of requests that starts from nothing and whose created runs come from the agents, each run's
      events are numbered exactly 0..k-1, and RESUME occurs in them at most once, as the last. */
  lemma EventsOverAgentHistory(states: seq<Db>, requests: seq<Request>, k: nat)
    requires IsAgentHistory(states, requests) && k < |states| && states[0] == EMPTY
    ensures Sound(states[k])
  {
    AgentHistoryIsHistory(states, requests);
    EmptyIsSound();
    EventsOverHistory(states, requests, k);
  }

  /** In such a history, as long as create requests finish, every run in review has an open case in its tenant. */
  lemma ReviewableOverAgentHistory(states: seq<Db>, requests: seq<Request>, k: nat)
    requires IsAgentHistory(states, requests) && k < |states| && states[0] == EMPTY
    requires forall i :: 0 <= i < |requests| && requests[i].Creating? ==> requests[i].c.progress.Finishes?
    ensures Reviewable(states[k])
  {
    AgentHistoryIsHistory(states, requests);
    ReviewableOverHistory(states, requests, k);
  }
}
