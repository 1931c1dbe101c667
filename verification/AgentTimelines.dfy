/** The timelines that the agents hand over are those that the run table counts on. */
module AgentTimelines {
  import opened Values
  import opened GraphEngine
  import opened EngineRuns
  import opened PolicyGraph
  import opened PolicyRuns
  import opened LifecycleHistory
  import S = PolicySupervisor
  import M = MixedExecution
  import R = SupervisorRuns
  import P = PolicyProfiles
  import A = SupervisorAgent
  import G = ToolGateway

  /** Every run of the policy graph: numbered 0, 1, 2, ... and without RESUME. */
  lemma {:induction false} PolicyGraphTimeline(
    w: World, tenantId: string, customerId: string, question: string, isChinese: bool)
    ensures FreshTimeline(RunOf(BuildPolicyGraph(w), InitialState(tenantId, customerId, question, isChinese),
                                MAX_REACT_STEPS).events)
  {
    var initial := InitialState(tenantId, customerId, question, isChinese);
    InitialIsTidy(tenantId, customerId, question, isChinese);
    RunShape(BuildPolicyGraph(w), initial, MAX_REACT_STEPS);
    NoResumeInLog(w, initial, MAX_REACT_STEPS);
  }

  // ----- the supervisor

  ghost predicate Quiet(notes: seq<S.Note>) {
    forall i :: 0 <= i < |notes| ==> notes[i].kind != Resume
  }

  /** Whatever it is asked, the tool reports no RESUME of its own. */
  ghost predicate QuietTool(tool: S.Tool) {
    forall input :: Quiet(S.Notes(tool(input).events))
  }

  /** A timeline is fresh exactly if it is numbered and its notes are quiet. */
  lemma FreshIs(events: seq<Event>)
    ensures FreshTimeline(events) <==> S.Numbered(events) && Quiet(S.Notes(events))
  {
    forall i | 0 <= i < |events| ensures S.Notes(events)[i].kind == events[i].kind {}
    if S.Numbered(events) && Quiet(S.Notes(events)) {
      forall i | 0 <= i < |events| ensures events[i].kind != Resume {
        assert S.Notes(events)[i].kind != Resume;
      }
    }
  }

  lemma QuietConcat(a: seq<S.Note>, b: seq<S.Note>)
    requires Quiet(a) && Quiet(b)
    ensures Quiet(a + b)
  {}

  lemma AppendKeepsFresh(events: seq<Event>, notes: seq<S.Note>)
    requires FreshTimeline(events) && Quiet(notes)
    ensures FreshTimeline(S.AppendAll(events, notes))
  {
    FreshIs(events);
    S.AppendKeepsNumbered(events, notes);
    S.AppendedNotes(events, notes);
    QuietConcat(S.Notes(events), notes);
    FreshIs(S.AppendAll(events, notes));
  }

  lemma OneMoreKeepsFresh(events: seq<Event>, note: S.Note)
    requires FreshTimeline(events) && note.kind != Resume
    ensures FreshTimeline(S.AppendEvent(events, note))
  {
    FreshIs(events);
    S.NextOfNumbered(events);
  }

  lemma {:induction false} AnswersAreQuiet(tool: S.Tool, ctx: S.Context, sqs: seq<P.Subquestion>)
    requires QuietTool(tool)
    ensures Quiet(S.AnswersTo(tool, ctx, sqs).notes)
  {
    if sqs != [] {
      var front, last := sqs[..|sqs| - 1], sqs[|sqs| - 1];
      AnswersAreQuiet(tool, ctx, front);
      QuietConcat(S.AnswersTo(tool, ctx, front).notes, S.Notes(S.Ask(tool, ctx, last).events));
    }
  }

  lemma WorkIsQuiet(p: P.Profile, tool: S.Tool, ctx: S.Context)
    requires QuietTool(tool)
    ensures Quiet(S.WorkOn(p, tool, ctx).notes)
  {
    var work, a := S.WorkOn(p, tool, ctx), S.AnswersTo(tool, ctx, P.SubquestionsOf(p, ctx.question));
    AnswersAreQuiet(tool, ctx, P.SubquestionsOf(p, ctx.question));
    var missing := work.report.missing;
    Around(S.FactNote(ctx, p, p.extractFacts(ctx.question), P.RequiredOf(p, ctx.question)), a.notes,
           S.InterruptNote(p, missing), S.EndNote(p, |a.subresults|), work.notes);
  }

  lemma Around(first: S.Note, notes: seq<S.Note>, pause: seq<S.Note>, last: S.Note, all: seq<S.Note>)
    requires first.kind != Resume && Quiet(notes) && Quiet(pause) && last.kind != Resume
    requires all == [first] + notes + pause + [last]
    ensures Quiet(all)
  {}

  lemma {:induction false} LoopKeepsFresh(start: M.Totals, planned: seq<P.Profile>, tool: S.Tool, ctx: S.Context)
    requires FreshTimeline(start.events) && QuietTool(tool)
    ensures FreshTimeline(M.SerialLoop(start, planned, tool, ctx).events)
  {
    if planned != [] {
      var front, p := planned[..|planned| - 1], planned[|planned| - 1];
      LoopKeepsFresh(start, front, tool, ctx);
      WorkIsQuiet(p, tool, ctx);
      AppendKeepsFresh(M.SerialLoop(start, front, tool, ctx).events, S.WorkOn(p, tool, ctx).notes);
    }
  }

  /** The mixed path, serial or parallel. */
  lemma {:induction false} MixedIsFresh(profiles: seq<P.Profile>, tool: S.Tool, st: M.State)
    requires FreshTimeline(st.events) && QuietTool(tool)
    ensures FreshTimeline(M.Serial(profiles, tool, st).events)
  {
    var planned := M.PlannedProfiles(profiles, st);
    LoopKeepsFresh(M.Begin(st), planned, tool, st.ctx);
    var t := M.SerialLoop(M.Begin(st), planned, tool, st.ctx);
    OneMoreKeepsFresh(t.events, M.MixedPause(t.missing, t.reports));
  }

  lemma ProfileNotesAreQuiet(p: P.Profile, tool: S.Tool, ctx: S.Context)
    requires QuietTool(tool)
    ensures Quiet(A.ProfileNotes(p, tool, ctx))
  {
    var a := S.AnswersTo(tool, ctx, P.SubquestionsOf(p, ctx.question));
    AnswersAreQuiet(tool, ctx, P.SubquestionsOf(p, ctx.question));
    var fact := S.FactNote(ctx, p, p.extractFacts(ctx.question), P.RequiredOf(p, ctx.question));
    assert [fact] + a.notes + [] + [S.EndNote(p, |a.subresults|)] == A.ProfileNotes(p, tool, ctx);
    Around(fact, a.notes, [], S.EndNote(p, |a.subresults|), A.ProfileNotes(p, tool, ctx));
  }

  lemma ValidationKeepsFresh(
    p: P.Profile, ctx: S.Context, required: seq<string>, subresults: seq<S.SubResult>, guardrails: seq<S.Guardrail>,
    events: seq<Event>)
    requires FreshTimeline(events)
    ensures FreshTimeline(R.ValidateProfile(p, ctx, required, subresults, guardrails, events).events)
  {
    var missing := S.Without(required, S.CoveredDimensions(subresults, ctx.threshold));
    OneMoreKeepsFresh(events, S.PauseNote(p.domain + "_completeness_validator", p.interruptReason, missing));
  }

  /** The path of a single profile. */
  lemma ProfileIsFresh(p: P.Profile, tool: S.Tool, st: M.State)
    requires FreshTimeline(st.events) && QuietTool(tool)
    ensures FreshTimeline(A.ProfileWork(p, tool, st).events)
  {
    var a := S.AnswersTo(tool, st.ctx, P.SubquestionsOf(p, st.ctx.question));
    ProfileNotesAreQuiet(p, tool, st.ctx);
    AppendKeepsFresh(st.events, A.ProfileNotes(p, tool, st.ctx));
    ValidationKeepsFresh(p, st.ctx, P.RequiredOf(p, st.ctx.question), a.subresults, st.guardrails + a.guardrails,
                         S.AppendAll(st.events, A.ProfileNotes(p, tool, st.ctx)));
  }

  /** The path without a profile. */
  lemma GenericIsFresh(tool: S.Tool, st: M.State)
    requires FreshTimeline(st.events) && QuietTool(tool)
    ensures FreshTimeline(A.GenericWork(tool, st).events)
  {
    AppendKeepsFresh(st.events, S.Notes(S.Ask(tool, st.ctx, P.Subquestion(P.PRIMARY, st.ctx.question)).events));
  }

  lemma RoutedIsFresh(profiles: seq<P.Profile>, ctx: S.Context, thread: A.Thread)
    ensures FreshTimeline(A.Routed(profiles, ctx, thread).events)
  {
    OneMoreKeepsFresh([A.BootstrapEvent(ctx, thread)], A.RouteNote(R.RouteNode(profiles, ctx.question)));
  }

  lemma WorkedIsFresh(profiles: seq<P.Profile>, tool: S.Tool, st: M.State)
    requires FreshTimeline(st.events) && QuietTool(tool)
    ensures FreshTimeline(A.Worked(profiles, tool, st).events)
  {
    match A.PathOf(profiles, st)
    case MixedPath => MixedIsFresh(profiles, tool, st);
    case ProfilePath(p) => ProfileIsFresh(p, tool, st);
    case GenericPath => GenericIsFresh(tool, st);
  }

  /** Every run of the supervisor, from its bootstrap event over any of the three paths to its GRAPH_END: numbered
      0, 1, 2, ... and without RESUME, if the tool reports none. */
  lemma {:induction false} SupervisorTimeline(profiles: seq<P.Profile>, tool: S.Tool, ctx: S.Context, thread: A.Thread)
    requires QuietTool(tool)
    ensures FreshTimeline(A.Supervised(profiles, tool, ctx, thread).events)
  {
    var st := A.Routed(profiles, ctx, thread);
    RoutedIsFresh(profiles, ctx, thread);
    WorkedIsFresh(profiles, tool, st);
    var w := A.Worked(profiles, tool, st);
    OneMoreKeepsFresh(w.events, R.GraphEndNote(st.specialist, w.interrupt.Some?, w.coverage.ratio, st.plannedDomains));
  }

  /** And the guarded tool reports none, whatever the tool behind it does. */
  lemma GatewayIsQuiet(
    name: string, tool: Option<G.ToolClass>, outcomes: S.ToolInput -> G.Outcome, approved: bool,
    read: map<string, Value> -> G.Reading)
    requires forall input :: outcomes(input).Result?
    ensures QuietTool(G.GatewayTool(name, tool, outcomes, approved, read))
  {
    var gateway := G.GatewayTool(name, tool, outcomes, approved, read);
    forall input ensures Quiet(S.Notes(gateway(input).events)) {
      G.GuardedEvents(name, tool, input, outcomes(input), approved, read);
    }
  }

  // ----- the other agents

  /** Nodes that report no events of their own. */
  ghost predicate Silent(g: Graph) {
    forall node, step, s {:trigger g.nodes[node](step, s)} ::
      node in g.nodes && g.nodes[node](step, s).Returned? ==> g.nodes[node](step, s).result.events == []
  }

  /** Every run of a graph of such nodes. */
  lemma {:induction false} SilentGraphTimeline(g: Graph, initial: GraphState, maxSteps: int)
    requires Silent(g)
    ensures FreshTimeline(RunOf(g, initial, maxSteps).events)
  {
    var visits := TraceOf(g, initial, maxSteps).visits;
    forall i | 0 <= i < |visits| && visits[i].attempt.Finished?
      ensures forall e :: e in visits[i].attempt.result.events ==> e.kind != Resume
    {
      GenuineVisit(StepperOf(g), g.entry, initial, maxSteps, i);
      SilentStep(g, visits[i].node, i, visits[i].before, visits[i].attempt);
    }
    KindNotInRun(g, initial, maxSteps, Resume);
    RunShape(g, initial, maxSteps);
  }

  lemma SilentStep(g: Graph, node: string, step: nat, s: GraphState, made: Attempt)
    requires Silent(g) && StepperOf(g)(node, step, s) == Some(made) && made.Finished?
    ensures made.result.events == []
  {}
}
