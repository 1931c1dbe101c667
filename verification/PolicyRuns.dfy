/** What every run of the policy graph looks like, whatever the planner and the tools do. */
module PolicyRuns {
  import opened Values
  import opened GraphEngine
  import opened EngineRuns
  import opened ReactPlanner
  import opened PolicyGraph
  import ToolRunner

  // ----- deltas of the shapes that the nodes return

  lemma ScratchpadDelta(s: GraphState, m: map<string, Value>)
    ensures ApplyDelta(s, [(Scratchpad, Dict(m))]) == Applied(s.(scratchpad := s.scratchpad + m))
  {
    var d: Delta := [(Scratchpad, Dict(m))];
    AsMapAppend([], Scratchpad, Dict(m));
    assert [] + d == d;
    MergeOneMore(s, map[], Scratchpad, Dict(m));
    MergeNothing(s);
  }

  lemma CallDelta(s: GraphState, m: map<string, Value>, calls: seq<Value>)
    ensures DistinctKeys([(Scratchpad, Dict(m)), (ToolCalls, List(calls))])
    ensures ApplyDelta(s, [(Scratchpad, Dict(m)), (ToolCalls, List(calls))]) ==
            Applied(s.(scratchpad := s.scratchpad + m, toolCalls := s.toolCalls + calls))
  {
    var one: Delta := [(Scratchpad, Dict(m))];
    ScratchpadDelta(s, m);
    AsMapAppend(one, ToolCalls, List(calls));
    assert one + [(ToolCalls, List(calls))] == [(Scratchpad, Dict(m)), (ToolCalls, List(calls))];
    MergeOneMore(s, AsMap(one), ToolCalls, List(calls));
  }

  /** One step of a node of the policy graph, without the engine's bookkeeping. */
  ghost function Outcome(w: World, node: string, step: nat, s: GraphState): NodeOutcome
    requires node in {PLAN, ACT, OBSERVE, FINALIZE}
  {
    if node == PLAN then PlanNode(w, step, s)
    else if node == ACT then ActNode(w, step, s)
    else if node == OBSERVE then ObserveNode(w, step, s)
    else FinalizeNode(w, step, s)
  }

  lemma PolicyNodes(w: World, node: string, step: nat, s: GraphState)
    ensures StepperOf(BuildPolicyGraph(w))(node, step, s).Some? <==> node in {PLAN, ACT, OBSERVE, FINALIZE}
    ensures node in {PLAN, ACT, OBSERVE, FINALIZE} ==>
              BuildPolicyGraph(w).nodes[node](step, s) == Outcome(w, node, step, s)
  {}

  /** The attempt at a node whose outcome writes `m` to the scratchpad. */
  lemma ScratchpadAttempt(w: World, node: string, step: nat, s: GraphState, next: Option<string>, m: map<string, Value>)
    requires node in {PLAN, ACT, OBSERVE, FINALIZE}
    requires Outcome(w, node, step, s) == Returned(NodeResult(next, [(Scratchpad, Dict(m))], []))
    ensures StepperOf(BuildPolicyGraph(w))(node, step, s) ==
            Some(Finished(NodeResult(next, [(Scratchpad, Dict(m))], []), s.(scratchpad := s.scratchpad + m)))
  {
    PolicyNodes(w, node, step, s);
    ScratchpadDelta(s, m);
  }

  lemma FailedAttempt(w: World, node: string, step: nat, s: GraphState)
    requires node in {PLAN, ACT, OBSERVE, FINALIZE}
    requires Outcome(w, node, step, s).Raised?
    ensures StepperOf(BuildPolicyGraph(w))(node, step, s) == Some(Failed(Outcome(w, node, step, s).fault))
  {
    PolicyNodes(w, node, step, s);
  }

  // ----- the invariant of the loop

  ghost function Observations(s: GraphState): seq<Value> {
    if ListAt(s.scratchpad, "observations").Some? then ListAt(s.scratchpad, "observations").value else []
  }

  ghost predicate Record(v: Value) {
    v.Dict? && {"tool_name", "status", "output_payload"} <= v.entries.Keys && v.entries["output_payload"].Dict?
  }

  ghost predicate Observed(v: Value) {
    v.Dict? && "output" in v.entries && v.entries["output"].Dict?
  }

  /** After `calls` tool runs and `seen` observations. */
  ghost predicate Tidy(s: GraphState, seen: nat, calls: nat) {
    && s.pausedReason == Null
    && "final" !in s.scratchpad
    && Readable(s) && |Observations(s)| == seen
    && (forall i :: 0 <= i < seen ==> Observed(Observations(s)[i]))
    && |s.toolCalls| == calls
    && (forall i :: 0 <= i < calls ==> Record(s.toolCalls[i]))
  }

  lemma InitialIsTidy(tenantId: string, customerId: string, question: string, isChinese: bool)
    ensures Tidy(InitialState(tenantId, customerId, question, isChinese), 0, 0)
  {}

  /** The planner's verdict on a state at a step. */
  ghost function PlanAt(w: World, step: nat, s: GraphState): Plan {
    PlanNextAction(w.settings, w.exchanges(step), Observations(s), Available(w, step))
  }

  /** What a plan visit does: it fails if the planner raises, and otherwise goes where the verdict says. */
  lemma PlanTurn(w: World, step: nat, s: GraphState, i: nat)
    requires Tidy(s, i, i)
    ensures var attempt := StepperOf(BuildPolicyGraph(w))(PLAN, step, s);
            attempt.Some? &&
            if PlanAt(w, step, s).Raises? then attempt.value.Failed?
            else
              attempt.value.Finished? && attempt.value.result.events == [] && Tidy(attempt.value.after, i, i) &&
              attempt.value.after.toolCalls == s.toolCalls && Observations(attempt.value.after) == Observations(s) &&
              Get(attempt.value.after.scratchpad, "last_tool_status") == Get(s.scratchpad, "last_tool_status") &&
              attempt.value.result.next == Some(NextOf(PlanAt(w, step, s).response)) &&
              (attempt.value.result.next == Some(ACT) ==>
                 PlannedTool(attempt.value.after).Some? &&
                 PlannedTool(attempt.value.after) == PlanAt(w, step, s).response.tool)
  {
    if PlanAt(w, step, s).Raises? {
      FailedAttempt(w, PLAN, step, s);
    } else {
      var r := PlanAt(w, step, s).response;
      ScratchpadAttempt(w, PLAN, step, s, Some(NextOf(r)), PlanUpdate(s, r));
      PlanKeepsTidy(s, r, i);
    }
  }

  lemma PlanKeepsTidy(s: GraphState, r: PlanResponse, i: nat)
    requires Tidy(s, i, i)
    ensures var after := s.(scratchpad := s.scratchpad + PlanUpdate(s, r));
            Tidy(after, i, i) && Observations(after) == Observations(s) &&
            Get(after.scratchpad, "last_tool_status") == Get(s.scratchpad, "last_tool_status") &&
            (NextOf(r) == ACT ==> PlannedTool(after) == r.tool && r.tool.Some?)
  {}

  lemma CallAttempt(w: World, step: nat, s: GraphState, tool: string)
    requires PlannedTool(s) == Some(tool) && w.tools(step, tool).Result?
    ensures var attempt := StepperOf(BuildPolicyGraph(w))(ACT, step, s);
            attempt.Some? && attempt.value.Finished? &&
            attempt.value.result.next == Some(OBSERVE) &&
            attempt.value.result.events == RunnerEvents(tool, RawInput(s), w.tools(step, tool)) &&
            attempt.value.after == AfterCall(s, tool, w.tools(step, tool))
  {
    PolicyNodes(w, ACT, step, s);
    var r := w.tools(step, tool);
    CallDelta(s, map["last_tool_status" := Str(StatusName(r.status))], [CallRecord(tool, RawInput(s), r)]);
  }

  ghost function AfterCall(s: GraphState, tool: string, r: ToolRunner.Outcome): GraphState
    requires r.Result?
  {
    s.(scratchpad := s.scratchpad + map["last_tool_status" := Str(StatusName(r.status))],
       toolCalls := s.toolCalls + [CallRecord(tool, RawInput(s), r)])
  }

  lemma CallKeepsTidy(s: GraphState, tool: string, r: ToolRunner.Outcome, i: nat)
    requires Tidy(s, i, i) && r.Result?
    ensures Tidy(AfterCall(s, tool, r), i, i + 1)
  {}

  /** What an act visit does: one more tool call, or a failure if the runner raises. */
  lemma ActTurn(w: World, step: nat, s: GraphState, i: nat)
    requires Tidy(s, i, i) && PlannedTool(s).Some?
    ensures var attempt := StepperOf(BuildPolicyGraph(w))(ACT, step, s);
            attempt.Some? &&
            (attempt.value.Finished? ==>
               attempt.value.result.next == Some(OBSERVE) && Tidy(attempt.value.after, i, i + 1) &&
               forall e :: e in attempt.value.result.events ==> e.kind in {ToolCallStart, ToolCallEnd})
  {
    var tool := PlannedTool(s).value;
    if w.tools(step, tool).Result? {
      CallAttempt(w, step, s, tool);
      CallKeepsTidy(s, tool, w.tools(step, tool), i);
    } else {
      FailedAttempt(w, ACT, step, s);
    }
  }

  lemma ObservingKeepsTidy(s: GraphState, seen: Value, i: nat)
    requires Tidy(s, i, i + 1) && Observed(seen)
    ensures var after := s.(scratchpad := s.scratchpad + map["observations" := List(Observations(s) + [seen])]);
            && Tidy(after, i + 1, i + 1) && Observations(after)[i] == seen
            && Get(after.scratchpad, "last_tool_status") == Get(s.scratchpad, "last_tool_status")
  {}

  /** What an observe visit does: the last call becomes one more observation. */
  lemma ObserveTurn(w: World, step: nat, s: GraphState, i: nat)
    requires Tidy(s, i, i + 1)
    ensures var attempt := StepperOf(BuildPolicyGraph(w))(OBSERVE, step, s);
            attempt.Some? && attempt.value.Finished? && attempt.value.result.events == [] &&
            attempt.value.result.next == Some(PLAN) && Tidy(attempt.value.after, i + 1, i + 1) &&
            attempt.value.after.toolCalls == s.toolCalls &&
            Get(attempt.value.after.scratchpad, "last_tool_status") == Get(s.scratchpad, "last_tool_status") &&
            Observations(attempt.value.after)[i].entries["output"] == s.toolCalls[i].entries["output_payload"]
  {
    var last := s.toolCalls[|s.toolCalls| - 1];
    var seen := Dict(map["tool" := last.entries["tool_name"], "status" := last.entries["status"],
                         "output" := last.entries["output_payload"]]);
    ObservingKeepsTidy(s, seen, i);
    ScratchpadAttempt(w, OBSERVE, step, s, Some(PLAN), map["observations" := List(Observations(s) + [seen])]);
  }

  /** The counts of a state that has been through the loop, with or without its final answer. */
  ghost predicate Counted(s: GraphState, seen: nat, calls: nat) {
    |Observations(s)| == seen && |s.toolCalls| == calls
  }

  /** What a finalize visit does: it writes the answer and ends the run, or fails on a bad confidence. */
  lemma FinalizeTurn(w: World, step: nat, s: GraphState, i: nat)
    requires Tidy(s, i, i)
    ensures var attempt := StepperOf(BuildPolicyGraph(w))(FINALIZE, step, s);
            attempt.Some? &&
            (attempt.value.Finished? ==>
               attempt.value.result.next.None? && attempt.value.result.events == [] &&
               attempt.value.after.pausedReason == Null && Counted(attempt.value.after, i, i) &&
               attempt.value.after.toolCalls == s.toolCalls)
            && (attempt.value.Failed? <==> Outcome(w, FINALIZE, step, s).Raised?)
  {
    if Outcome(w, FINALIZE, step, s).Raised? {
      FailedAttempt(w, FINALIZE, step, s);
    } else {
      var m := FinalUpdate(w, step, s);
      ScratchpadAttempt(w, FINALIZE, step, s, None, m);
    }
  }

  /** What the finalize node writes to the scratchpad. */
  ghost function FinalUpdate(w: World, step: nat, s: GraphState): (m: map<string, Value>)
    requires Outcome(w, FINALIZE, step, s).Returned?
    ensures Outcome(w, FINALIZE, step, s) == Returned(NodeResult(None, [(Scratchpad, Dict(m))], []))
    ensures m.Keys == {"final"}
  {
    FinalizeNode(w, step, s).result.delta[0].1.entries
  }

  // ----- the loop

  /** What is known on entry to a node at step `j` of a run. */
  ghost predicate AtPhase(s: GraphState, node: string, j: nat) {
    if node == PLAN then j % 3 == 0 && Tidy(s, j / 3, j / 3)
    else if node == ACT then j % 3 == 1 && Tidy(s, j / 3, j / 3) && PlannedTool(s).Some?
    else if node == OBSERVE then j % 3 == 2 && Tidy(s, j / 3, j / 3 + 1)
    else node == FINALIZE && j % 3 == 1 && Tidy(s, j / 3, j / 3)
  }

  /** What an attempt at a node leaves behind for the next step. */
  ghost predicate TurnMade(node: string, j: nat, attempt: Attempt) {
    attempt.Finished? ==>
      attempt.after.pausedReason == Null &&
      (forall e :: e in attempt.result.events ==> e.kind in {ToolCallStart, ToolCallEnd}) &&
      if node == FINALIZE then attempt.result.next.None? && Counted(attempt.after, j / 3, j / 3)
      else attempt.result.next.Some? && AtPhase(attempt.after, attempt.result.next.value, j + 1)
  }

  lemma PlanPhase(w: World, j: nat, s: GraphState)
    requires j % 3 == 0 && Tidy(s, j / 3, j / 3)
    ensures var made := StepperOf(BuildPolicyGraph(w))(PLAN, j, s); made.Some? && TurnMade(PLAN, j, made.value)
  {
    PlanTurn(w, j, s, j / 3);
    assert (j + 1) % 3 == 1 && (j + 1) / 3 == j / 3;
  }

  lemma ActPhase(w: World, j: nat, s: GraphState)
    requires j % 3 == 1 && Tidy(s, j / 3, j / 3) && PlannedTool(s).Some?
    ensures var made := StepperOf(BuildPolicyGraph(w))(ACT, j, s); made.Some? && TurnMade(ACT, j, made.value)
  {
    ActTurn(w, j, s, j / 3);
    assert (j + 1) % 3 == 2 && (j + 1) / 3 == j / 3;
  }

  lemma ObservePhase(w: World, j: nat, s: GraphState)
    requires j % 3 == 2 && Tidy(s, j / 3, j / 3 + 1)
    ensures var made := StepperOf(BuildPolicyGraph(w))(OBSERVE, j, s); made.Some? && TurnMade(OBSERVE, j, made.value)
  {
    ObserveTurn(w, j, s, j / 3);
    assert (j + 1) % 3 == 0 && (j + 1) / 3 == j / 3 + 1;
  }

  lemma FinalizePhase(w: World, j: nat, s: GraphState)
    requires j % 3 == 1 && Tidy(s, j / 3, j / 3)
    ensures var made := StepperOf(BuildPolicyGraph(w))(FINALIZE, j, s); made.Some? && TurnMade(FINALIZE, j, made.value)
  {
    FinalizeTurn(w, j, s, j / 3);
  }

  lemma Turn(w: World, node: string, j: nat, s: GraphState)
    requires AtPhase(s, node, j)
    ensures var made := StepperOf(BuildPolicyGraph(w))(node, j, s); made.Some? && TurnMade(node, j, made.value)
  {
    if node == PLAN {
      PlanPhase(w, j, s);
    } else if node == ACT {
      ActPhase(w, j, s);
    } else if node == OBSERVE {
      ObservePhase(w, j, s);
    } else {
      FinalizePhase(w, j, s);
    }
  }

  /** The trace of a run of the policy graph from a state that has not been through it yet. */
  ghost function PolicyTrace(w: World, initial: GraphState, maxSteps: int): Trace {
    TraceOf(BuildPolicyGraph(w), initial, maxSteps)
  }

  ghost function PhaseInvariant(): (string, nat, GraphState) -> bool {
    (node: string, j: nat, s: GraphState) => AtPhase(s, node, j)
  }

  lemma PhasesAreInductive(w: World)
    ensures Inductive(StepperOf(BuildPolicyGraph(w)), PhaseInvariant())
  {
    var go, inv := StepperOf(BuildPolicyGraph(w)), PhaseInvariant();
    forall node, j: nat, s | inv(node, j, s) && go(node, j, s).Some? && Continues(Visit(node, s, go(node, j, s).value))
      ensures var attempt := go(node, j, s).value; inv(attempt.result.next.value, j + 1, attempt.after)
    {
      Turn(w, node, j, s);
    }
  }

  lemma Phases(w: World, initial: GraphState, maxSteps: int, j: nat)
    requires Tidy(initial, 0, 0) && j < |PolicyTrace(w, initial, maxSteps).visits|
    ensures var v := PolicyTrace(w, initial, maxSteps).visits[j];
            && AtPhase(v.before, v.node, j)
            && StepperOf(BuildPolicyGraph(w))(v.node, j, v.before) == Some(v.attempt)
            && TurnMade(v.node, j, v.attempt)
  {
    var go := StepperOf(BuildPolicyGraph(w));
    PhasesAreInductive(w);
    assert PhaseInvariant()(PLAN, 0, initial);
    InvariantAtEveryVisit(go, PLAN, initial, maxSteps, PhaseInvariant(), j);
    var v := PolicyTrace(w, initial, maxSteps).visits[j];
    Turn(w, v.node, j, v.before);
  }

  // ----- a run of the policy graph described visit by visit

  /** What visit `j` found, and that it did what its node does. */
  ghost predicate PhaseAt(go: Stepper, t: Trace, j: nat)
    requires j < |t.visits|
  {
    var v := t.visits[j];
    && AtPhase(v.before, v.node, j)
    && go(v.node, j, v.before) == Some(v.attempt)
    && TurnMade(v.node, j, v.attempt)
  }

  /** A failed visit is the last; any other hands its state to the node it names. */
  ghost predicate HandedAt(t: Trace, j: nat)
    requires j < |t.visits|
  {
    var v := t.visits[j];
    if v.attempt.Failed? then j == |t.visits| - 1 && t.ending.NodeFailed?
    else j + 1 < |t.visits| ==>
           Some(t.visits[j + 1].node) == v.attempt.result.next && t.visits[j + 1].before == v.attempt.after
  }

  ghost predicate VisitAt(go: Stepper, t: Trace, j: nat)
    requires j < |t.visits|
  {
    PhaseAt(go, t, j) && HandedAt(t, j)
  }

  ghost predicate PolicyRun(go: Stepper, initial: GraphState, maxSteps: int, t: Trace) {
    && Concluded(t, initial, maxSteps)
    && !t.ending.NoSuchNode?
    && (t.visits != [] ==> t.visits[0].before == initial)
    && forall j :: 0 <= j < |t.visits| ==> VisitAt(go, t, j)
  }

  lemma VisitOfTrace(w: World, initial: GraphState, maxSteps: int, j: nat)
    requires Tidy(initial, 0, 0) && j < |PolicyTrace(w, initial, maxSteps).visits|
    ensures VisitAt(StepperOf(BuildPolicyGraph(w)), PolicyTrace(w, initial, maxSteps), j)
  {
    Phases(w, initial, maxSteps, j);
    Handover(StepperOf(BuildPolicyGraph(w)), PLAN, initial, maxSteps, j);
  }

  lemma StartOfTrace(w: World, initial: GraphState, maxSteps: int)
    ensures var t := PolicyTrace(w, initial, maxSteps);
            Concluded(t, initial, maxSteps) && (t.visits != [] ==> t.visits[0].before == initial)
  {
    LastVisit(StepperOf(BuildPolicyGraph(w)), PLAN, initial, maxSteps);
    TraceIsARun(StepperOf(BuildPolicyGraph(w)), Some(PLAN), initial, 0, maxSteps);
  }

  /** There is a step for every node in its phase. */
  ghost predicate Everywhere(go: Stepper) {
    forall node, j: nat, s {:trigger go(node, j, s)} :: AtPhase(s, node, j) ==> go(node, j, s).Some?
  }

  lemma PolicyGraphIsEverywhere(w: World)
    ensures Everywhere(StepperOf(BuildPolicyGraph(w)))
  {
    var go := StepperOf(BuildPolicyGraph(w));
    forall node, j: nat, s | AtPhase(s, node, j) ensures go(node, j, s).Some? {
      Turn(w, node, j, s);
    }
  }

  /** Whatever node the last visit names, the graph has it. */
  lemma SuccessorIsThere(go: Stepper, t: Trace, j: nat)
    requires Everywhere(go) && j < |t.visits| && PhaseAt(go, t, j) && Continues(t.visits[j])
    ensures go(t.visits[j].attempt.result.next.value, j + 1, t.visits[j].attempt.after).Some?
  {}

  /** The last visit of the trace names a node that the graph has, if it names one. */
  ghost predicate LastSuccessorIn(go: Stepper, t: Trace) {
    t.visits != [] && Continues(t.visits[|t.visits| - 1]) ==>
      var last := t.visits[|t.visits| - 1];
      go(last.attempt.result.next.value, |t.visits|, last.attempt.after).Some?
  }

  lemma LastSuccessorOf(go: Stepper, t: Trace)
    requires Everywhere(go) && (t.visits != [] ==> PhaseAt(go, t, |t.visits| - 1))
    ensures LastSuccessorIn(go, t)
  {
    if t.visits != [] && Continues(t.visits[|t.visits| - 1]) {
      SuccessorIsThere(go, t, |t.visits| - 1);
    }
  }

  lemma LastSuccessorIsThere(w: World, initial: GraphState, maxSteps: int)
    requires Tidy(initial, 0, 0)
    ensures LastSuccessorIn(StepperOf(BuildPolicyGraph(w)), PolicyTrace(w, initial, maxSteps))
  {
    var t := PolicyTrace(w, initial, maxSteps);
    PolicyGraphIsEverywhere(w);
    if t.visits != [] {
      VisitOfTrace(w, initial, maxSteps, |t.visits| - 1);
    }
    LastSuccessorOf(StepperOf(BuildPolicyGraph(w)), t);
  }

  lemma StaysInGraph(w: World, initial: GraphState, maxSteps: int)
    requires Tidy(initial, 0, 0)
    ensures !PolicyTrace(w, initial, maxSteps).ending.NoSuchNode?
  {
    PolicyNodes(w, PLAN, 0, initial);
    LastSuccessorIsThere(w, initial, maxSteps);
    NodeIsThere(StepperOf(BuildPolicyGraph(w)), PLAN, initial, maxSteps);
  }

  lemma TraceIsPolicyRun(w: World, initial: GraphState, maxSteps: int)
    requires Tidy(initial, 0, 0)
    ensures PolicyRun(StepperOf(BuildPolicyGraph(w)), initial, maxSteps, PolicyTrace(w, initial, maxSteps))
  {
    StartOfTrace(w, initial, maxSteps);
    StaysInGraph(w, initial, maxSteps);
    var t := PolicyTrace(w, initial, maxSteps);
    forall j | 0 <= j < |t.visits| ensures VisitAt(StepperOf(BuildPolicyGraph(w)), t, j) {
      VisitOfTrace(w, initial, maxSteps, j);
    }
  }

  // ----- order, bounds and the allow-list

  ghost predicate InOrder(t: Trace, j: nat)
    requires j < |t.visits|
  {
    && (j % 3 == 0 ==> t.visits[j].node == PLAN)
    && (j % 3 == 1 ==> t.visits[j].node == ACT || (t.visits[j].node == FINALIZE && j == |t.visits| - 1))
    && (j % 3 == 2 ==> t.visits[j].node == OBSERVE)
  }

  lemma VisitInOrder(go: Stepper, t: Trace, j: nat)
    requires j < |t.visits| && VisitAt(go, t, j)
    ensures InOrder(t, j)
  {}

  /** The nodes that run are a prefix of (plan act observe)* plan finalize. */
  lemma {:induction false} NodeOrder(w: World, initial: GraphState, maxSteps: int, j: nat)
    requires Tidy(initial, 0, 0) && j < |PolicyTrace(w, initial, maxSteps).visits|
    ensures InOrder(PolicyTrace(w, initial, maxSteps), j)
  {
    VisitOfTrace(w, initial, maxSteps, j);
    VisitInOrder(StepperOf(BuildPolicyGraph(w)), PolicyTrace(w, initial, maxSteps), j);
  }

  lemma LastCounts(v: Visit, j: nat)
    requires AtPhase(v.before, v.node, j) && TurnMade(v.node, j, v.attempt)
    ensures var s := StateAfter(v);
            |Observations(s)| <= |s.toolCalls| <= |Observations(s)| + 1 && 3 * |s.toolCalls| <= j + 2
  {}

  lemma CallsOfRun(go: Stepper, initial: GraphState, maxSteps: int, t: Trace)
    requires Tidy(initial, 0, 0) && PolicyRun(go, initial, maxSteps, t)
    ensures |Observations(t.state)| <= |t.state.toolCalls| <= |Observations(t.state)| + 1
    ensures 3 * |t.state.toolCalls| <= |t.visits| + 1
    ensures |t.visits| <= Budget(maxSteps)
  {
    if t.visits != [] {
      assert VisitAt(go, t, |t.visits| - 1);
      LastCounts(t.visits[|t.visits| - 1], |t.visits| - 1);
    }
  }

  /** Whatever run it is, each observation answers a tool call, at most one call is still unobserved,
      and there is one call per three steps: at most 3 in a run of 8 steps. */
  lemma ToolCallsAreBounded(w: World, initial: GraphState, maxSteps: int)
    requires Tidy(initial, 0, 0)
    ensures var t := PolicyTrace(w, initial, maxSteps);
            && |Observations(t.state)| <= |t.state.toolCalls| <= |Observations(t.state)| + 1
            && 3 * |t.state.toolCalls| <= |t.visits| + 1
            && (maxSteps == MAX_REACT_STEPS ==> |t.state.toolCalls| <= 3)
  {
    TraceIsPolicyRun(w, initial, maxSteps);
    CallsOfRun(StepperOf(BuildPolicyGraph(w)), initial, maxSteps, PolicyTrace(w, initial, maxSteps));
  }

  /** An act visit takes over from a plan visit. */
  lemma ActFollowsPlan(go: Stepper, t: Trace, j: nat)
    requires 0 < j < |t.visits| && VisitAt(go, t, j) && VisitAt(go, t, j - 1) && t.visits[j].node == ACT
    ensures var v := t.visits[j - 1];
            && v.node == PLAN && Tidy(v.before, (j - 1) / 3, (j - 1) / 3)
            && go(PLAN, j - 1, v.before) == Some(v.attempt)
            && v.attempt.Finished? && v.attempt.result.next == Some(ACT) && t.visits[j].before == v.attempt.after
  {
    VisitInOrder(go, t, j - 1);
  }

  /** The tool planned in this state is in the catalog of that step, or is the fallback's. */
  ghost predicate ToolAllowed(w: World, step: nat, s: GraphState) {
    var tool := PlannedTool(s);
    tool.Some? && (tool.value in Available(w, step) || tool.value == POLICY_SEARCH)
  }

  /** Every plan visit that leads to a call leaves such a tool. */
  ghost predicate PlansAllowed(w: World, go: Stepper) {
    forall step: nat, s, i: nat {:trigger go(PLAN, step, s), Tidy(s, i, i)} :: Tidy(s, i, i) ==>
      var made := go(PLAN, step, s);
      made.Some? && made.value.Finished? && made.value.result.next == Some(ACT) ==>
        ToolAllowed(w, step, made.value.after)
  }

  lemma PlannedIsAllowed(w: World, step: nat, s: GraphState, i: nat, made: Attempt)
    requires Tidy(s, i, i) && StepperOf(BuildPolicyGraph(w))(PLAN, step, s) == Some(made)
    requires made.Finished? && made.result.next == Some(ACT)
    ensures ToolAllowed(w, step, made.after)
  {
    PlanTurn(w, step, s, i);
    PlannedToolIsAllowed(w.settings, w.exchanges(step), Observations(s), Available(w, step));
  }

  lemma PlansAreAllowed(w: World)
    ensures PlansAllowed(w, StepperOf(BuildPolicyGraph(w)))
  {
    var go := StepperOf(BuildPolicyGraph(w));
    forall step: nat, s, i: nat |
      Tidy(s, i, i) && go(PLAN, step, s).Some? && go(PLAN, step, s).value.Finished? &&
      go(PLAN, step, s).value.result.next == Some(ACT)
      ensures ToolAllowed(w, step, go(PLAN, step, s).value.after)
    {
      PlannedIsAllowed(w, step, s, i, go(PLAN, step, s).value);
    }
  }

  lemma ToolOfVisit(w: World, go: Stepper, t: Trace, j: nat)
    requires PlansAllowed(w, go) && 0 < j < |t.visits| && VisitAt(go, t, j) && VisitAt(go, t, j - 1)
    requires t.visits[j].node == ACT
    ensures ToolAllowed(w, j - 1, t.visits[j].before)
  {
    ActFollowsPlan(go, t, j);
    assert go(PLAN, j - 1, t.visits[j - 1].before).Some? && Tidy(t.visits[j - 1].before, (j - 1) / 3, (j - 1) / 3);
  }

  /** Every tool that is run was in the catalog shown to the planner one step earlier, or is the
      fallback's `policy_search`. */
  lemma ToolsAreAllowed(w: World, initial: GraphState, maxSteps: int, j: nat)
    requires Tidy(initial, 0, 0) && j < |PolicyTrace(w, initial, maxSteps).visits|
    requires PolicyTrace(w, initial, maxSteps).visits[j].node == ACT
    ensures j > 0 && ToolAllowed(w, j - 1, PolicyTrace(w, initial, maxSteps).visits[j].before)
  {
    VisitOfTrace(w, initial, maxSteps, j);
    VisitOfTrace(w, initial, maxSteps, j - 1);
    PlansAreAllowed(w);
    ToolOfVisit(w, StepperOf(BuildPolicyGraph(w)), PolicyTrace(w, initial, maxSteps), j);
  }

  // ----- completion

  /** The planner's verdict in turn `k` (counted from 0) is to finalize. */
  ghost predicate FinalizesInTurn(w: World, t: Trace, k: nat) {
    3 * k < |t.visits| &&
    var plan := PlanAt(w, 3 * k, t.visits[3 * k].before);
    plan.Verdict? && NextOf(plan.response) == FINALIZE
  }

  lemma TurnVisit(go: Stepper, t: Trace, k: nat)
    requires 3 * k < |t.visits| && VisitAt(go, t, 3 * k)
    ensures var v := t.visits[3 * k];
            v.node == PLAN && Tidy(v.before, k, k) && go(PLAN, 3 * k, v.before) == Some(v.attempt)
  {
    VisitInOrder(go, t, 3 * k);
  }

  lemma PlanNamesFinal(w: World, step: nat, s: GraphState, i: nat, made: Attempt)
    requires Tidy(s, i, i) && StepperOf(BuildPolicyGraph(w))(PLAN, step, s) == Some(made)
    ensures var plan := PlanAt(w, step, s);
            plan.Verdict? && NextOf(plan.response) == FINALIZE <==> made.Finished? && made.result.next == Some(FINALIZE)
  {
    PlanTurn(w, step, s, i);
  }

  /** Which turns finalize. */
  ghost function TurnsOf(w: World, t: Trace): nat -> bool {
    (k: nat) => FinalizesInTurn(w, t, k)
  }

  /** Turn `k` of the planner finalizes exactly if its visit names the final node as successor. */
  ghost predicate TurnIs(t: Trace, finalizes: nat -> bool, k: nat)
    requires 3 * k < |t.visits|
  {
    var attempt := t.visits[3 * k].attempt;
    finalizes(k) <==> attempt.Finished? && attempt.result.next == Some(FINALIZE)
  }

  lemma TurnOfPlanner(w: World, go: Stepper, t: Trace, k: nat)
    requires go == StepperOf(BuildPolicyGraph(w)) && 3 * k < |t.visits| && VisitAt(go, t, 3 * k)
    ensures TurnIs(t, TurnsOf(w, t), k)
  {
    TurnVisit(go, t, k);
    PlanNamesFinal(w, 3 * k, t.visits[3 * k].before, k, t.visits[3 * k].attempt);
  }

  lemma TurnsOfPlanner(w: World, go: Stepper, initial: GraphState, maxSteps: int, t: Trace)
    requires go == StepperOf(BuildPolicyGraph(w)) && PolicyRun(go, initial, maxSteps, t)
    ensures forall k: nat :: 3 * k < |t.visits| ==> TurnIs(t, TurnsOf(w, t), k)
  {
    forall k: nat | 3 * k < |t.visits| ensures TurnIs(t, TurnsOf(w, t), k) {
      assert VisitAt(go, t, 3 * k);
      TurnOfPlanner(w, go, t, k);
    }
  }

  /** What decides how a run ends: of visit `j`, whether it failed, whether it is to the final node, and which
      planner's turns name that node. */
  ghost predicate ShapedAt(t: Trace, finalizes: nat -> bool, j: nat)
    requires j < |t.visits|
  {
    var v := t.visits[j];
    && (v.node == FINALIZE ==> j % 3 == 1)
    && (v.attempt.Failed? ==> j == |t.visits| - 1 && t.ending.NodeFailed?)
    && (v.attempt.Finished? ==>
          v.attempt.after.pausedReason == Null && (v.attempt.result.next.None? <==> v.node == FINALIZE) &&
          (j == |t.visits| - 1 || Some(t.visits[j + 1].node) == v.attempt.result.next))
    && (j % 3 == 0 ==> (finalizes(j / 3) <==> v.attempt.Finished? && v.attempt.result.next == Some(FINALIZE)))
  }

  ghost predicate Shaped(initial: GraphState, maxSteps: int, t: Trace, finalizes: nat -> bool) {
    Concluded(t, initial, maxSteps) && !t.ending.NoSuchNode? && forall j :: 0 <= j < |t.visits| ==>
      ShapedAt(t, finalizes, j)
  }

  lemma VisitIsShaped(go: Stepper, t: Trace, finalizes: nat -> bool, j: nat)
    requires j < |t.visits| && VisitAt(go, t, j) && (j % 3 == 0 ==> TurnIs(t, finalizes, j / 3))
    ensures ShapedAt(t, finalizes, j)
  {}

  lemma VisitsAreShaped(go: Stepper, initial: GraphState, maxSteps: int, t: Trace, finalizes: nat -> bool)
    requires PolicyRun(go, initial, maxSteps, t)
    requires forall k: nat :: 3 * k < |t.visits| ==> TurnIs(t, finalizes, k)
    ensures Shaped(initial, maxSteps, t, finalizes)
  {
    forall j | 0 <= j < |t.visits| ensures ShapedAt(t, finalizes, j) {
      assert VisitAt(go, t, j);
      assert j % 3 == 0 ==> 3 * (j / 3) == j && TurnIs(t, finalizes, j / 3);
      VisitIsShaped(go, t, finalizes, j);
    }
  }

  lemma RunIsShaped(w: World, go: Stepper, initial: GraphState, maxSteps: int, t: Trace)
    requires go == StepperOf(BuildPolicyGraph(w)) && PolicyRun(go, initial, maxSteps, t)
    ensures Shaped(initial, maxSteps, t, TurnsOf(w, t))
  {
    TurnsOfPlanner(w, go, initial, maxSteps, t);
    VisitsAreShaped(go, initial, maxSteps, t, TurnsOf(w, t));
  }

  lemma FinalizingTurnCompletes(initial: GraphState, maxSteps: int, t: Trace, finalizes: nat -> bool, k: nat)
    requires Shaped(initial, maxSteps, t, finalizes) && !t.ending.NodeFailed?
    requires 3 * k + 2 <= maxSteps && 3 * k < |t.visits| && finalizes(k)
    ensures t.ending.NoNextNode?
  {
    assert ShapedAt(t, finalizes, 3 * k);
    assert ShapedAt(t, finalizes, 3 * k + 1);
  }

  lemma CompletedRunFinalizes(initial: GraphState, maxSteps: int, t: Trace, finalizes: nat -> bool) returns (k: nat)
    requires Shaped(initial, maxSteps, t, finalizes) && t.ending.NoNextNode?
    ensures 3 * k + 2 <= maxSteps && finalizes(k)
  {
    var j := |t.visits| - 1;
    assert ShapedAt(t, finalizes, j);
    assert ShapedAt(t, finalizes, j - 1);
    k := (j - 1) / 3;
  }

  lemma ShapedNeverPauses(initial: GraphState, maxSteps: int, t: Trace, finalizes: nat -> bool)
    requires Shaped(initial, maxSteps, t, finalizes)
    ensures !t.ending.PauseRequested?
  {
    if t.visits != [] {
      assert ShapedAt(t, finalizes, |t.visits| - 1);
    }
  }

  /** A run whose last visit is to the final node ends there or fails. */
  lemma ShapedEnds(initial: GraphState, maxSteps: int, t: Trace, finalizes: nat -> bool)
    requires Shaped(initial, maxSteps, t, finalizes) && t.visits != [] && t.visits[|t.visits| - 1].node == FINALIZE
    ensures var last := t.visits[|t.visits| - 1];
            if last.attempt.Finished? then t.ending.NoNextNode? && t.state == last.attempt.after
              else t.ending.NodeFailed?
  {
    assert ShapedAt(t, finalizes, |t.visits| - 1);
  }

  lemma NeverPauses(w: World, go: Stepper, initial: GraphState, maxSteps: int, t: Trace)
    requires go == StepperOf(BuildPolicyGraph(w)) && PolicyRun(go, initial, maxSteps, t)
    ensures !t.ending.PauseRequested?
  {
    RunIsShaped(w, go, initial, maxSteps, t);
    ShapedNeverPauses(initial, maxSteps, t, TurnsOf(w, t));
  }

  lemma FinalVisitEnds(w: World, go: Stepper, initial: GraphState, maxSteps: int, t: Trace)
    requires go == StepperOf(BuildPolicyGraph(w)) && PolicyRun(go, initial, maxSteps, t) && t.visits != [] &&
             t.visits[|t.visits| - 1].node == FINALIZE
    ensures var last := t.visits[|t.visits| - 1];
            if last.attempt.Finished? then t.ending.NoNextNode? && t.state == last.attempt.after
              else t.ending.NodeFailed?
  {
    RunIsShaped(w, go, initial, maxSteps, t);
    ShapedEnds(initial, maxSteps, t, TurnsOf(w, t));
  }

  /** A visit that named a successor within the budget is not the last one. */
  lemma GoesOn(go: Stepper, initial: GraphState, maxSteps: int, t: Trace, j: nat)
    requires PolicyRun(go, initial, maxSteps, t) && j < |t.visits| && j + 1 < maxSteps && VisitAt(go, t, j)
    requires t.visits[j].attempt.Finished? && t.visits[j].attempt.result.next.Some?
    ensures j + 1 < |t.visits|
    ensures Some(t.visits[j + 1].node) == t.visits[j].attempt.result.next &&
            t.visits[j + 1].before == t.visits[j].attempt.after
  {}

  lemma RunCompletesExactlyWhen(w: World, go: Stepper, initial: GraphState, maxSteps: int, t: Trace)
    requires go == StepperOf(BuildPolicyGraph(w)) && PolicyRun(go, initial, maxSteps, t)
    ensures ReasonOf(t.ending) != PAUSED
    ensures ReasonOf(t.ending) != ERROR ==>
              (ReasonOf(t.ending) == COMPLETED <==>
                 exists k: nat :: 3 * k + 2 <= maxSteps && FinalizesInTurn(w, t, k))
  {
    RunIsShaped(w, go, initial, maxSteps, t);
    ShapedNeverPauses(initial, maxSteps, t, TurnsOf(w, t));
    if t.ending.NoNextNode? {
      var k := CompletedRunFinalizes(initial, maxSteps, t, TurnsOf(w, t));
      assert FinalizesInTurn(w, t, k);
    }
    forall k: nat | 3 * k + 2 <= maxSteps && FinalizesInTurn(w, t, k) && !t.ending.NodeFailed?
      ensures t.ending.NoNextNode?
    {
      FinalizingTurnCompletes(initial, maxSteps, t, TurnsOf(w, t), k);
    }
  }

  /** A run never pauses. Unless one of its nodes raises it ends in one of two ways, and it is COMPLETED
      exactly if the planner finalizes in a turn that leaves room for the final node. */
  lemma CompletedExactlyWhen(w: World, initial: GraphState, maxSteps: int)
    requires Tidy(initial, 0, 0)
    ensures var t := PolicyTrace(w, initial, maxSteps);
            && ReasonOf(t.ending) != PAUSED
            && (ReasonOf(t.ending) != ERROR ==>
                  (ReasonOf(t.ending) == COMPLETED <==>
                     exists k: nat :: 3 * k + 2 <= maxSteps && FinalizesInTurn(w, t, k)))
  {
    TraceIsPolicyRun(w, initial, maxSteps);
    RunCompletesExactlyWhen(w, StepperOf(BuildPolicyGraph(w)), initial, maxSteps, PolicyTrace(w, initial, maxSteps));
  }

  /** With the budget that the agent uses there is room for three turns of the planner. */
  lemma {:induction false} CompletedByThirdTurn(
    w: World, tenantId: string, customerId: string, question: string, isChinese: bool)
    ensures var initial := InitialState(tenantId, customerId, question, isChinese);
            var t := PolicyTrace(w, initial, MAX_REACT_STEPS);
            ReasonOf(t.ending) != ERROR ==>
              (ReasonOf(t.ending) == COMPLETED <==> exists k: nat :: k < 3 && FinalizesInTurn(w, t, k))
  {
    var initial := InitialState(tenantId, customerId, question, isChinese);
    InitialIsTidy(tenantId, customerId, question, isChinese);
    CompletedExactlyWhen(w, initial, MAX_REACT_STEPS);
    ThreeTurnsFit(w, PolicyTrace(w, initial, MAX_REACT_STEPS));
  }

  lemma ThreeTurnsFit(w: World, t: Trace)
    ensures (exists k: nat :: 3 * k + 2 <= MAX_REACT_STEPS && FinalizesInTurn(w, t, k)) <==>
            (exists k: nat :: k < 3 && FinalizesInTurn(w, t, k))
  {
    assert forall k: nat :: 3 * k + 2 <= MAX_REACT_STEPS <==> k < 3;
  }

  // ----- the hard-coded planner

  /** The tool's confidence, if it has one, can be read as a number. */
  ghost predicate FloatConfidence(python: Python, payload: map<string, Value>) {
    "confidence" in payload ==> AsFloat(python, payload["confidence"]).Some?
  }

  /** What `policy_search` does in the run: it answers, or fails in a way the runner reports. */
  ghost predicate SearchIsReported(python: Python, r: ToolRunner.Outcome) {
    r.Result? && (r.status == ToolRunner.Completed ==> FloatConfidence(python, r.payload))
  }

  /** What a plan visit leaves untouched. */
  ghost predicate SameEvidence(s: GraphState, after: GraphState) {
    && after.toolCalls == s.toolCalls
    && Observations(after) == Observations(s)
    && Get(after.scratchpad, "last_tool_status") == Get(s.scratchpad, "last_tool_status")
  }

  /** A plan visit with the hard-coded planner always succeeds: it searches first and then finalizes. */
  lemma HardcodedPlan(w: World, step: nat, s: GraphState, k: nat)
    requires !w.settings.llmEnabled && Tidy(s, k, k)
    ensures var attempt := StepperOf(BuildPolicyGraph(w))(PLAN, step, s);
            attempt.Some? && attempt.value.Finished? && SameEvidence(s, attempt.value.after) &&
            attempt.value.result.next == Some(if k == 0 then ACT else FINALIZE) &&
            (k == 0 ==> PlannedTool(attempt.value.after) == Some(POLICY_SEARCH))
  {
    assert PlanAt(w, step, s) == Verdict(HardcodedFallback(Observations(s), "agent_react_llm_enabled is False"));
    PlanTurn(w, step, s, k);
  }

  lemma FirstVisit(go: Stepper, initial: GraphState, maxSteps: int, t: Trace)
    requires PolicyRun(go, initial, maxSteps, t) && maxSteps > 0
    ensures t.visits != [] && VisitAt(go, t, 0)
  {}

  /** Every plan visit searches first and then finalizes, and touches no evidence. */
  ghost predicate SearchesThenFinalizes(go: Stepper) {
    forall step: nat, s, k: nat {:trigger go(PLAN, step, s), Tidy(s, k, k)} :: Tidy(s, k, k) ==>
      var attempt := go(PLAN, step, s);
      && attempt.Some? && attempt.value.Finished? && SameEvidence(s, attempt.value.after)
      && attempt.value.result.next == Some(if k == 0 then ACT else FINALIZE)
      && (k == 0 ==> PlannedTool(attempt.value.after) == Some(POLICY_SEARCH))
  }

  lemma HardcodedPlans(w: World)
    requires !w.settings.llmEnabled
    ensures SearchesThenFinalizes(StepperOf(BuildPolicyGraph(w)))
  {
    forall step: nat, s, k: nat | Tidy(s, k, k)
      ensures var attempt := StepperOf(BuildPolicyGraph(w))(PLAN, step, s);
              && attempt.Some? && attempt.value.Finished? && SameEvidence(s, attempt.value.after)
              && attempt.value.result.next == Some(if k == 0 then ACT else FINALIZE)
              && (k == 0 ==> PlannedTool(attempt.value.after) == Some(POLICY_SEARCH))
    {
      HardcodedPlan(w, step, s, k);
    }
  }

  lemma HardcodedTurn(go: Stepper, initial: GraphState, maxSteps: int, t: Trace, k: nat)
    requires SearchesThenFinalizes(go) && PolicyRun(go, initial, maxSteps, t) && 3 * k + 1 < maxSteps
    requires 3 * k < |t.visits|
    ensures 3 * k + 1 < |t.visits| && SameEvidence(t.visits[3 * k].before, t.visits[3 * k + 1].before)
    ensures t.visits[3 * k + 1].node == (if k == 0 then ACT else FINALIZE)
    ensures k == 0 ==> PlannedTool(t.visits[3 * k + 1].before) == Some(POLICY_SEARCH)
  {
    assert VisitAt(go, t, 3 * k);
    TurnVisit(go, t, k);
    assert go(PLAN, 3 * k, t.visits[3 * k].before).Some? && Tidy(t.visits[3 * k].before, k, k);
    GoesOn(go, initial, maxSteps, t, 3 * k);
  }

  /** The search has been called and not yet observed. */
  ghost predicate Searching(s: GraphState, r: ToolRunner.Outcome) {
    && r.Result?
    && Tidy(s, 0, 1)
    && Get(s.scratchpad, "last_tool_status") == Str(StatusName(r.status))
    && s.toolCalls[0].Dict? && Get(s.toolCalls[0].entries, "tool_name") == Str(POLICY_SEARCH)
    && s.toolCalls[0].entries["output_payload"] == Dict(r.payload)
  }

  /** The search has been observed. */
  ghost predicate Informed(s: GraphState, r: ToolRunner.Outcome) {
    && r.Result?
    && Tidy(s, 1, 1)
    && Get(s.scratchpad, "last_tool_status") == Str(StatusName(r.status))
    && Observations(s)[0].entries["output"] == Dict(r.payload)
    && s.toolCalls[0].Dict? && Get(s.toolCalls[0].entries, "tool_name") == Str(POLICY_SEARCH)
  }

  lemma Searched(s: GraphState, r: ToolRunner.Outcome)
    requires Tidy(s, 0, 0) && r.Result?
    ensures Searching(AfterCall(s, POLICY_SEARCH, r), r)
  {
    CallKeepsTidy(s, POLICY_SEARCH, r, 0);
  }

  lemma ObservedSearch(w: World, step: nat, s: GraphState, r: ToolRunner.Outcome)
    requires Searching(s, r)
    ensures var attempt := StepperOf(BuildPolicyGraph(w))(OBSERVE, step, s);
            attempt.Some? && attempt.value.Finished? && attempt.value.result.next == Some(PLAN) &&
            Informed(attempt.value.after, r)
  {
    ObserveTurn(w, step, s, 0);
  }

  /** The final node fails only on a completed search whose confidence `float` does not take. */
  lemma FinalizeRaises(w: World, step: nat, s: GraphState, r: ToolRunner.Outcome)
    requires Informed(s, r)
    ensures Outcome(w, FINALIZE, step, s).Raised? <==> !SearchIsReported(w.settings.python, r)
  {}

  lemma EvidenceKeepsInformed(s: GraphState, after: GraphState, r: ToolRunner.Outcome)
    requires Informed(s, r) && SameEvidence(s, after) && Tidy(after, 1, 1)
    ensures Informed(after, r)
  {}

  /** The act visit of the hard-coded run. */
  lemma HardcodedAct(w: World, go: Stepper, initial: GraphState, maxSteps: int, t: Trace)
    requires go == StepperOf(BuildPolicyGraph(w)) && PolicyRun(go, initial, maxSteps, t) && maxSteps >= 4 &&
             w.tools(1, POLICY_SEARCH).Result?
    requires 1 < |t.visits| && t.visits[1].node == ACT && PlannedTool(t.visits[1].before) == Some(POLICY_SEARCH)
    ensures 2 < |t.visits| && t.visits[2].node == OBSERVE && Searching(t.visits[2].before, w.tools(1, POLICY_SEARCH))
  {
    assert VisitAt(go, t, 1);
    CallAttempt(w, 1, t.visits[1].before, POLICY_SEARCH);
    Searched(t.visits[1].before, w.tools(1, POLICY_SEARCH));
    GoesOn(go, initial, maxSteps, t, 1);
  }

  lemma HardcodedObserve(w: World, go: Stepper, initial: GraphState, maxSteps: int, t: Trace, r: ToolRunner.Outcome)
    requires go == StepperOf(BuildPolicyGraph(w)) && PolicyRun(go, initial, maxSteps, t) && maxSteps >= 4
    requires 2 < |t.visits| && t.visits[2].node == OBSERVE && Searching(t.visits[2].before, r)
    ensures 3 < |t.visits| && Informed(t.visits[3].before, r)
  {
    assert VisitAt(go, t, 2);
    ObservedSearch(w, 2, t.visits[2].before, r);
    GoesOn(go, initial, maxSteps, t, 2);
  }

  lemma HardcodedFinal(w: World, go: Stepper, initial: GraphState, maxSteps: int, t: Trace)
    requires !w.settings.llmEnabled && go == StepperOf(BuildPolicyGraph(w)) && PolicyRun(go, initial, maxSteps, t) &&
             maxSteps >= 5
    requires w.tools(1, POLICY_SEARCH).Result?
    ensures |t.visits| == 5 && t.visits[4].node == FINALIZE && Informed(t.visits[4].before, w.tools(1, POLICY_SEARCH))
  {
    var r := w.tools(1, POLICY_SEARCH);
    FirstVisit(go, initial, maxSteps, t);
    HardcodedPlans(w);
    HardcodedTurn(go, initial, maxSteps, t, 0);
    HardcodedAct(w, go, initial, maxSteps, t);
    HardcodedObserve(w, go, initial, maxSteps, t, r);
    HardcodedTurn(go, initial, maxSteps, t, 1);
    assert VisitAt(go, t, 4);
    VisitInOrder(go, t, 4);
    EvidenceKeepsInformed(t.visits[3].before, t.visits[4].before, r);
  }

  /** How the hard-coded run ends, once the search has been observed. */
  lemma HardcodedEnds(w: World, v: Visit, r: ToolRunner.Outcome)
    requires Informed(v.before, r) && StepperOf(BuildPolicyGraph(w))(FINALIZE, 4, v.before) == Some(v.attempt)
    ensures v.attempt.Finished? <==> SearchIsReported(w.settings.python, r)
    ensures v.attempt.Finished? ==>
              |v.attempt.after.toolCalls| == 1 && v.attempt.after.toolCalls[0].Dict? &&
              Get(v.attempt.after.toolCalls[0].entries, "tool_name") == Str(POLICY_SEARCH)
  {
    FinalizeTurn(w, 4, v.before, 1);
    FinalizeRaises(w, 4, v.before, r);
  }

  lemma HardcodedActFails(w: World, go: Stepper, initial: GraphState, maxSteps: int, t: Trace)
    requires !w.settings.llmEnabled && go == StepperOf(BuildPolicyGraph(w)) && PolicyRun(go, initial, maxSteps, t) &&
             maxSteps >= 4
    requires !w.tools(1, POLICY_SEARCH).Result?
    ensures t.ending.NodeFailed?
  {
    FirstVisit(go, initial, maxSteps, t);
    HardcodedPlans(w);
    HardcodedTurn(go, initial, maxSteps, t, 0);
    assert VisitAt(go, t, 1);
    FailedAttempt(w, ACT, 1, t.visits[1].before);
  }

  ghost predicate HardcodedResult(w: World, t: Trace) {
    if SearchIsReported(w.settings.python, w.tools(1, POLICY_SEARCH)) then
      ReasonOf(t.ending) == COMPLETED && |t.visits| == 5 && |t.state.toolCalls| == 1 &&
      t.state.toolCalls[0].Dict? && Get(t.state.toolCalls[0].entries, "tool_name") == Str(POLICY_SEARCH)
    else ReasonOf(t.ending) == ERROR
  }

  lemma HardcodedRun(w: World, go: Stepper, initial: GraphState, maxSteps: int, t: Trace)
    requires !w.settings.llmEnabled && go == StepperOf(BuildPolicyGraph(w)) && PolicyRun(go, initial, maxSteps, t) &&
             maxSteps >= 5
    ensures HardcodedResult(w, t)
  {
    if w.tools(1, POLICY_SEARCH).Result? {
      HardcodedFinal(w, go, initial, maxSteps, t);
      assert VisitAt(go, t, 4);
      HardcodedEnds(w, t.visits[4], w.tools(1, POLICY_SEARCH));
      FinalVisitEnds(w, go, initial, maxSteps, t);
    } else {
      HardcodedActFails(w, go, initial, maxSteps, t);
    }
  }

  /** With the hard-coded planner every run that gets an answer or a reported failure from `policy_search`
      completes in exactly five steps with exactly that one call; any other run ends in an error. */
  lemma {:induction false} HardcodedPlannerRun(
    w: World, tenantId: string, customerId: string, question: string, isChinese: bool)
    requires !w.settings.llmEnabled
    ensures HardcodedResult(w, PolicyTrace(w, InitialState(tenantId, customerId, question, isChinese), MAX_REACT_STEPS))
  {
    var initial := InitialState(tenantId, customerId, question, isChinese);
    InitialIsTidy(tenantId, customerId, question, isChinese);
    TraceIsPolicyRun(w, initial, MAX_REACT_STEPS);
    HardcodedRun(w, StepperOf(BuildPolicyGraph(w)), initial, MAX_REACT_STEPS, PolicyTrace(w, initial, MAX_REACT_STEPS));
  }

  // ----- the result that is reported

  lemma Unanswered(python: Python, s: GraphState, node: string, j: nat)
    requires AtPhase(s, node, j)
    ensures FinalConfidence(python, s) == 0.0
  {}

  lemma NotAnsweredYet(python: Python, v: Visit, j: nat)
    requires AtPhase(v.before, v.node, j) && TurnMade(v.node, j, v.attempt) && v.node != FINALIZE
    ensures FinalConfidence(python, StateAfter(v)) == 0.0
  {
    if v.attempt.Finished? {
      Unanswered(python, v.attempt.after, v.attempt.result.next.value, j + 1);
    } else {
      Unanswered(python, v.before, v.node, j);
    }
  }

  /** A run that spent its budget has no final answer, so its confidence reads as 0. */
  lemma NoAnswerWithinBudget(python: Python, go: Stepper, initial: GraphState, maxSteps: int, t: Trace)
    requires PolicyRun(go, initial, maxSteps, t) && maxSteps > 0 && t.ending.BudgetSpent?
    ensures FinalConfidence(python, t.state) == 0.0
  {
    FirstVisit(go, initial, maxSteps, t);
    var j := |t.visits| - 1;
    assert VisitAt(go, t, j);
    NotAnsweredYet(python, t.visits[j], j);
  }

  /** "failed" means an error, and "completed" means no error and a confidence that reaches the threshold.
      A run that spent its budget is reported "completed" exactly if the threshold is not positive;
      with a positive threshold only a COMPLETED run is. */
  ghost predicate ReportedAs(r: RunResult, e: Execution, threshold: real) {
    && (e.status == "failed" <==> r.endReason == ERROR)
    && (e.status == "completed" <==> r.endReason != ERROR && e.confidence >= threshold)
    && (r.endReason == MAX_STEPS ==> (e.status == "completed" <==> threshold <= 0.0))
    && (threshold > 0.0 && e.status == "completed" ==> r.endReason == COMPLETED)
    && (e.status == "needs_review" ==> e.requiresHumanReview)
    && (e.requiresHumanReview <==> e.confidence < threshold)
  }

  lemma {:induction false} ReportedStatus(
    w: World, tenantId: string, customerId: string, question: string, isChinese: bool, threshold: real)
    ensures var r := RunOf(BuildPolicyGraph(w), InitialState(tenantId, customerId, question, isChinese),
                           MAX_REACT_STEPS);
            ReportedAs(r, RunResultToExecution(w.settings.python, r, threshold), threshold)
  {
    var initial := InitialState(tenantId, customerId, question, isChinese);
    InitialIsTidy(tenantId, customerId, question, isChinese);
    TraceIsPolicyRun(w, initial, MAX_REACT_STEPS);
    var t := PolicyTrace(w, initial, MAX_REACT_STEPS);
    NeverPauses(w, StepperOf(BuildPolicyGraph(w)), initial, MAX_REACT_STEPS, t);
    if t.ending.BudgetSpent? {
      NoAnswerWithinBudget(w.settings.python, StepperOf(BuildPolicyGraph(w)), initial, MAX_REACT_STEPS, t);
    }
    StatusOf(w.settings.python, t, threshold);
  }

  lemma StatusOf(python: Python, t: Trace, threshold: real)
    requires ReasonOf(t.ending) != PAUSED
    requires t.ending.BudgetSpent? ==> FinalConfidence(python, t.state) == 0.0
    ensures var r := Replay(t, MAX_REACT_STEPS);
            ReportedAs(r, RunResultToExecution(python, r, threshold), threshold)
  {}

  // ----- a planner that never finalizes

  /** The planner calls a tool in every turn, and the runner reports every call. */
  ghost predicate NeverSettles(w: World) {
    && (forall step, s {:trigger PlanAt(w, step, s)} ::
          Readable(s) ==> PlanAt(w, step, s).Verdict? && NextOf(PlanAt(w, step, s).response) == ACT)
    && (forall step, tool {:trigger w.tools(step, tool)} :: w.tools(step, tool).Result?)
  }

  /** The visit succeeded and named a successor other than the final node. */
  ghost predicate Unsettled(v: Visit) {
    v.attempt.Finished? && v.attempt.result.next.Some? && v.attempt.result.next != Some(FINALIZE)
  }

  lemma UnsettledVisit(w: World, j: nat, v: Visit)
    requires NeverSettles(w) && AtPhase(v.before, v.node, j) && v.node != FINALIZE
    requires StepperOf(BuildPolicyGraph(w))(v.node, j, v.before) == Some(v.attempt)
    ensures Unsettled(v)
  {
    if v.node == PLAN {
      PlanTurn(w, j, v.before, j / 3);
    } else if v.node == ACT {
      CallAttempt(w, j, v.before, PlannedTool(v.before).value);
    } else {
      ObserveTurn(w, j, v.before, j / 3);
    }
  }

  lemma UnsettledVisits(w: World, go: Stepper, initial: GraphState, maxSteps: int, t: Trace)
    requires go == StepperOf(BuildPolicyGraph(w)) && PolicyRun(go, initial, maxSteps, t) && NeverSettles(w)
    ensures forall j :: 0 <= j < |t.visits| && t.visits[j].node != FINALIZE ==> Unsettled(t.visits[j])
  {
    forall j | 0 <= j < |t.visits| && t.visits[j].node != FINALIZE ensures Unsettled(t.visits[j]) {
      assert VisitAt(go, t, j);
      UnsettledVisit(w, j, t.visits[j]);
    }
  }

  lemma {:induction false} NeverFinal(go: Stepper, initial: GraphState, maxSteps: int, t: Trace, j: nat)
    requires PolicyRun(go, initial, maxSteps, t) && j < |t.visits|
    requires forall i :: 0 <= i < |t.visits| && t.visits[i].node != FINALIZE ==> Unsettled(t.visits[i])
    ensures t.visits[j].node != FINALIZE
  {
    assert VisitAt(go, t, j);
    if j == 0 {
      VisitInOrder(go, t, 0);
    } else {
      assert VisitAt(go, t, j - 1);
      NeverFinal(go, initial, maxSteps, t, j - 1);
    }
  }

  lemma UnsettledEnds(go: Stepper, initial: GraphState, maxSteps: int, t: Trace)
    requires PolicyRun(go, initial, maxSteps, t) && maxSteps > 0
    requires forall i :: 0 <= i < |t.visits| && t.visits[i].node != FINALIZE ==> Unsettled(t.visits[i])
    ensures t.ending.BudgetSpent?
  {
    FirstVisit(go, initial, maxSteps, t);
    NeverFinal(go, initial, maxSteps, t, |t.visits| - 1);
    assert VisitAt(go, t, |t.visits| - 1);
  }

  lemma UnsettledRun(w: World, go: Stepper, initial: GraphState, maxSteps: int, t: Trace)
    requires go == StepperOf(BuildPolicyGraph(w)) && PolicyRun(go, initial, maxSteps, t) && NeverSettles(w) &&
             maxSteps > 0
    ensures t.ending.BudgetSpent?
  {
    UnsettledVisits(w, go, initial, maxSteps, t);
    UnsettledEnds(go, initial, maxSteps, t);
  }

  /** A planner that never settles spends the budget, and with a threshold of zero its run is reported "completed". */
  lemma UnsettledIsReportedCompleted(w: World, tenantId: string, customerId: string, question: string, isChinese: bool)
    requires NeverSettles(w)
    ensures var r := RunOf(BuildPolicyGraph(w), InitialState(tenantId, customerId, question, isChinese),
                           MAX_REACT_STEPS);
            r.endReason == MAX_STEPS && RunResultToExecution(w.settings.python, r, 0.0).status == "completed"
  {
    var initial := InitialState(tenantId, customerId, question, isChinese);
    InitialIsTidy(tenantId, customerId, question, isChinese);
    TraceIsPolicyRun(w, initial, MAX_REACT_STEPS);
    UnsettledRun(w, StepperOf(BuildPolicyGraph(w)), initial, MAX_REACT_STEPS, PolicyTrace(w, initial, MAX_REACT_STEPS));
    ReportedStatus(w, tenantId, customerId, question, isChinese, 0.0);
  }

  /** The only events that the nodes add to the engine's own are the two of each tool call, so the log of
      a run holds no RESUME event: that kind is left to the reviewer's decision. */
  lemma NoResumeInLog(w: World, initial: GraphState, maxSteps: int)
    requires Tidy(initial, 0, 0)
    ensures var r := RunOf(BuildPolicyGraph(w), initial, maxSteps);
            forall i :: 0 <= i < |r.events| ==> r.events[i].kind != Resume
  {
    var visits := PolicyTrace(w, initial, maxSteps).visits;
    forall i | 0 <= i < |visits| && visits[i].attempt.Finished?
      ensures forall e :: e in visits[i].attempt.result.events ==> e.kind != Resume
    {
      Phases(w, initial, maxSteps, i);
    }
    KindNotInRun(BuildPolicyGraph(w), initial, maxSteps, Resume);
  }

  // ----- the agent

  /** `execute_policy_graph`, without its tracing spans and its display timeline: whatever the planner and the tools
      do, a result with at most 8 steps and 3 tool calls, events numbered from 0, and a status that tells how the
      run ended. */
  method ExecutePolicyGraph(
    w: World, tenantId: string, customerId: string, question: string, isChinese: bool, threshold: real)
    returns (r: RunResult, execution: Execution)
    ensures r.steps <= MAX_REACT_STEPS && |r.state.toolCalls| <= 3
    ensures forall i :: 0 <= i < |r.events| ==> r.events[i].sequence == i && r.events[i].kind != Resume
    ensures ReportedAs(r, execution, threshold)
    ensures r == RunOf(BuildPolicyGraph(w), InitialState(tenantId, customerId, question, isChinese), MAX_REACT_STEPS)
  {
    ghost var initial := InitialState(tenantId, customerId, question, isChinese);
    r := Run(BuildPolicyGraph(w), InitialState(tenantId, customerId, question, isChinese), MAX_REACT_STEPS);
    execution := RunResultToExecution(w.settings.python, r, threshold);
    InitialIsTidy(tenantId, customerId, question, isChinese);
    RunShape(BuildPolicyGraph(w), initial, MAX_REACT_STEPS);
    NoResumeInLog(w, initial, MAX_REACT_STEPS);
    ToolCallsAreBounded(w, initial, MAX_REACT_STEPS);
    ReportedStatus(w, tenantId, customerId, question, isChinese, threshold);
  }
}
