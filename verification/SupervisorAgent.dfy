/** The policy supervisor from its first event to the result it hands over. */
module SupervisorAgent {
  import opened Values
  import opened GraphEngine
  import opened Text
  import opened Citations
  import opened PolicyProfiles
  import opened PolicySupervisor
  import opened MixedExecution
  import opened CoverageLaws
  import opened SupervisorRuns

  // ----- before the paths part

  /** What the bootstrap reads about the thread. */
  datatype Thread = Thread(known: bool, recentRuns: nat)

  function BootstrapEvent(ctx: Context, thread: Thread): Event {
    Event(0, MemoryRead, "policy_supervisor_bootstrap",
          map["thread_id" := Str(ctx.threadId), "thread_exists" := Bool(thread.known),
              "recent_run_count" := Int(thread.recentRuns)])
  }

  function RouteNote(route: Route): Note {
    Note(RouteDecision, "policy_supervisor",
         map["domain" := Str(route.policyDomain), "specialist" := Str(route.specialist),
             "confidence" := Real(route.confidence),
             "fallback_reason" := if route.fallbackReason.Some? then Str(route.fallbackReason.value) else Null,
             "planned_domains" := Strings(route.plannedDomains), "specialist_plan" := Strings(route.specialistPlan)])
  }

  /** The state after `_route_node`. */
  function Routed(profiles: seq<Profile>, ctx: Context, thread: Thread): State {
    var route := RouteNode(profiles, ctx.question);
    State(ctx, route.plannedDomains, route.specialist, route.policyDomain, [], [],
          AppendEvent([BootstrapEvent(ctx, thread)], RouteNote(route)))
  }

  datatype Path = MixedPath | ProfilePath(p: Profile) | GenericPath

  /** `_route_after_policy`. */
  function PathOf(profiles: seq<Profile>, st: State): Path {
    if st.policyDomain == "mixed" then MixedPath
    else
      match ActiveProfile(profiles, st)
      case Some(p) => ProfilePath(p)
      case None => GenericPath
  }

  // ----- the three paths

  /** The part of the state that the final node reads. */
  datatype PathWork = PathWork(
    subresults: seq<SubResult>, citations: seq<Citation>, coverage: Coverage, perDomain: map<string, Coverage>,
    missing: seq<string>, interrupt: Option<Interrupt>, guardrails: seq<Guardrail>, events: seq<Event>,
    calls: seq<ToolCall>, reports: seq<Report>)

  function WorkOfMixed(m: Mixed): PathWork {
    PathWork(m.subresults, m.citations, m.coverage, m.perDomain, m.missing, m.interrupt, m.guardrails, m.events,
             m.calls, m.reports)
  }

  /** `_generic_search_node`: the question as it is, with nothing to cover. */
  ghost function GenericWork(tool: Tool, st: State): PathWork {
    var sq := Subquestion(PRIMARY, st.ctx.question);
    var g := Ask(tool, st.ctx, sq);
    PathWork([SubResultOf(sq, g)], g.citations, Coverage([], [], 1.0), map[], [], None,
         st.guardrails + Wrapped(g.guardrails), AppendAll(st.events, Notes(g.events)), [CallOf(g)], [])
  }

  /** The notes of the single-profile nodes up to the end of the answers. */
  ghost function ProfileNotes(p: Profile, tool: Tool, ctx: Context): seq<Note> {
    var a := AnswersTo(tool, ctx, SubquestionsOf(p, ctx.question));
    [FactNote(ctx, p, p.extractFacts(ctx.question), RequiredOf(p, ctx.question))] + a.notes +
      [EndNote(p, |a.subresults|)]
  }

  ghost function ProfileWork(p: Profile, tool: Tool, st: State): PathWork {
    var a := AnswersTo(tool, st.ctx, SubquestionsOf(p, st.ctx.question));
    var v := ValidateProfile(p, st.ctx, RequiredOf(p, st.ctx.question), a.subresults, st.guardrails + a.guardrails,
                             AppendAll(st.events, ProfileNotes(p, tool, st.ctx)));
    PathWork(a.subresults, Dedup(Flatten(CitationsOf(a.subresults))), v.coverage, map[], v.missing, v.interrupt,
         v.guardrails, v.events, a.calls, [])
  }

  ghost function Worked(profiles: seq<Profile>, tool: Tool, st: State): PathWork {
    match PathOf(profiles, st)
    case MixedPath => WorkOfMixed(Serial(profiles, tool, st))
    case ProfilePath(p) => ProfileWork(p, tool, st)
    case GenericPath => GenericWork(tool, st)
  }

  // ----- the final node

  function SumConfidence(subresults: seq<SubResult>): real {
    if subresults == [] then 0.0
    else SumConfidence(subresults[..|subresults| - 1]) + subresults[|subresults| - 1].confidence
  }

  function AverageConfidence(subresults: seq<SubResult>): real {
    if subresults == [] then 0.0 else Round4(SumConfidence(subresults) / |subresults| as real)
  }

  function AtLeastHalf(ratio: real): real {
    if ratio < 0.5 then 0.5 else ratio
  }

  function RoundedProduct(x: real, y: real): real {
    Round4(x * y)
  }

  function FinalConfidence(subresults: seq<SubResult>, coverage: Coverage): real {
    RoundedProduct(AverageConfidence(subresults), AtLeastHalf(coverage.ratio))
  }

  function JoinWith(parts: seq<string>, sep: string): string {
    if parts == [] then ""
    else if |parts| == 1 then parts[0]
    else JoinWith(parts[..|parts| - 1], sep) + sep + parts[|parts| - 1]
  }

  function Primary(subresults: seq<SubResult>): Option<SubResult> {
    if subresults == [] then None
    else if subresults[0].dimension == PRIMARY then Some(subresults[0])
    else Primary(subresults[1..])
  }

  function ReportLine(r: Report): string {
    r.title + "：" + if Strip(r.primaryAnswer) != "" then Strip(r.primaryAnswer) else "该领域未生成明确结论。"
  }

  function ReportLines(reports: seq<Report>): seq<string> {
    seq(|reports|, i requires 0 <= i < |reports| => ReportLine(reports[i]))
  }

  function MixedAnswer(reports: seq<Report>, missing: seq<string>): string {
    JoinWith(
      ["已完成多领域政策拆分，按领域结论如下："] + ReportLines(reports) +
      (if missing == [] then []
       else ["", "当前证据仍未覆盖全部必答维度，结果已转入人工复核。", "缺失维度：" + JoinWith(missing, ", ")]),
      "\n")
  }

  function Labels(p: Profile, dimensions: seq<string>): seq<string> {
    seq(|dimensions|, i requires 0 <= i < |dimensions| => p.labelOf(dimensions[i]))
  }

  function IncompleteAnswer(
    p: Profile, covered: seq<string>, missing: seq<string>, primary: Option<SubResult>): string
  {
    "已完成" + p.title + "政策多跳检查，但证据覆盖仍不完整。"
    + "已覆盖维度：" + (if JoinWith(covered, ", ") != "" then JoinWith(covered, ", ") else "无") + "。"
    + "仍缺少维度：" + JoinWith(Labels(p, missing), ", ") + "。"
    + "为避免给出不完整合规结论，本次结果已转入人工复核。"
    + if primary.Some? && primary.value.answer != "" then "\n\n当前已确认信息：" + primary.value.answer else ""
  }

  function AnswerOf(profiles: seq<Profile>, st: State, w: PathWork): string {
    var active, primary := ActiveProfile(profiles, st), Primary(w.subresults);
    if w.reports != [] then MixedAnswer(w.reports, w.missing)
    else if w.missing != [] && active.Some? then IncompleteAnswer(active.value, w.coverage.covered, w.missing, primary)
    else if primary.Some? then primary.value.answer
    else "未能生成政策答案。"
  }

  datatype FinalResult = FinalResult(
    answer: string, confidence: real, citations: seq<Citation>, coverage: Coverage, perDomain: map<string, Coverage>,
    missing: seq<string>, guardrails: seq<Guardrail>, interrupt: Option<Interrupt>, specialist: string,
    plannedDomains: seq<string>, reports: seq<Report>)

  /** What the agent hands over. */
  datatype Handover = Handover(result: FinalResult, events: seq<Event>, calls: seq<ToolCall>) {
    /** The status and the review flag of `_result_to_execution_v2`. */
    function Status(): string {
      if RequiresReview() then "needs_review" else "completed"
    }

    predicate RequiresReview() {
      result.interrupt.Some?
    }
  }

  ghost function Finished(profiles: seq<Profile>, st: State, w: PathWork): Handover {
    Handover(
      FinalResult(AnswerOf(profiles, st, w), FinalConfidence(w.subresults, w.coverage),
                  FinalCitations(w.reports, w.subresults), w.coverage, w.perDomain, w.missing, w.guardrails,
                  w.interrupt, st.specialist, st.plannedDomains, w.reports),
      AppendEvent(w.events, GraphEndNote(st.specialist, w.interrupt.Some?, w.coverage.ratio, st.plannedDomains)),
      w.calls)
  }

  /** What the final node promises: no citation key twice, and exactly those of the work; the timeline of the work
      with one GRAPH_END behind it, numbered if that was; and nothing of the work changed. */
  ghost predicate Closes(st: State, w: PathWork, h: Handover) {
    && NoKeyTwice(h.result.citations)
    && Keys(h.result.citations) == Keys(Flatten(if w.reports != [] then ReportCitations(w.reports)
                                                else CitationsOf(w.subresults)))
    && |h.events| == |w.events| + 1 && h.events[..|w.events|] == w.events && h.events[|w.events|].kind == GraphEnd
    && (Numbered(w.events) ==> Numbered(h.events))
    && (h.RequiresReview() <==> w.interrupt.Some?)
  }

  lemma FinishedCloses(profiles: seq<Profile>, st: State, w: PathWork)
    ensures Closes(st, w, Finished(profiles, st, w))
  {
    MergedKeys(Flatten(if w.reports != [] then ReportCitations(w.reports) else CitationsOf(w.subresults)));
    if Numbered(w.events) {
      NextOfNumbered(w.events);
    }
  }

  /** `_finalize_supervisor_node`, and what `_result_to_execution_v2` takes out of it. */
  method FinalizeSupervisor(profiles: seq<Profile>, st: State, w: PathWork) returns (h: Handover)
    ensures Closes(st, w, h)
    ensures h == Finished(profiles, st, w)
  {
    FinishedCloses(profiles, st, w);
    var lists;
    if w.reports != [] {
      lists := seq(|w.reports|, i requires 0 <= i < |w.reports| => w.reports[i].citations);
      assert lists == ReportCitations(w.reports);
    } else {
      lists := CitationLists(w.subresults);
    }
    var citations := MergeCitations(lists);
    h := Handover(
      FinalResult(AnswerOf(profiles, st, w), FinalConfidence(w.subresults, w.coverage), citations, w.coverage,
                  w.perDomain, w.missing, w.guardrails, w.interrupt, st.specialist, st.plannedDomains, w.reports),
      AppendEvent(w.events, GraphEndNote(st.specialist, w.interrupt.Some?, w.coverage.ratio, st.plannedDomains)),
      w.calls);
  }

  // ----- the whole run

  ghost function Supervised(profiles: seq<Profile>, tool: Tool, ctx: Context, thread: Thread): Handover {
    var st := Routed(profiles, ctx, thread);
    Finished(profiles, st, Worked(profiles, tool, st))
  }

  /** The parallel mode: the workers' writes are merged one by one in the order in which they arrive, and then
      reduced. The result is that of the serial mode. */
  method ExecuteParallel(profiles: seq<Profile>, tool: Tool, st: State, arrivals: seq<string>) returns (m: Mixed)
    requires DistinctDomains(profiles)
    requires forall d :: d in FanOut(profiles, st) ==> d in arrivals
    ensures m == Serial(profiles, tool, st)
  {
    var merged: Writes := map[];
    for i := 0 to |arrivals|
      invariant merged == Arrive(map[], WritesOf(arrivals[..i], profiles, tool, st.ctx))
    {
      ArriveOneMore(map[], arrivals, i, profiles, tool, st.ctx);
      var writes := MixedProfileWorker(profiles, tool, st.ctx, arrivals[i]);
      merged := MergeParallelReports(merged, writes);
    }
    assert arrivals[..|arrivals|] == arrivals;
    SerialEqualsParallel(profiles, tool, st, map[], arrivals);
    m := MixedReducer(profiles, st, merged);
  }

  /** One run of the compiled graph, in either mode; `arrivals` are the domains in the order in which the workers'
      writes arrive. Both modes hand over the same. */
  method Supervise(
    profiles: seq<Profile>, tool: Tool, ctx: Context, thread: Thread, parallel: bool, arrivals: seq<string>)
    returns (h: Handover)
    requires DistinctDomains(profiles)
    requires forall d :: d in FanOut(profiles, Routed(profiles, ctx, thread)) ==> d in arrivals
    ensures h == Supervised(profiles, tool, ctx, thread)
  {
    var st := Routed(profiles, ctx, thread);
    var w;
    match PathOf(profiles, st) {
      case MixedPath =>
        var m;
        if parallel {
          m := ExecuteParallel(profiles, tool, st, arrivals);
        } else {
          m := MixedExecute(profiles, tool, st);
        }
        w := WorkOfMixed(m);
      case ProfilePath(p) =>
        w := WorkOnProfile(p, tool, st);
      case GenericPath =>
        w := SearchGenerically(tool, st);
    }
    h := FinalizeSupervisor(profiles, st, w);
  }

  /** What a search without a profile promises: one answer, to the question itself; nothing required, so nothing
      missing and no interrupt; and the events of that one call behind the timeline, numbered if that was. */
  ghost predicate SearchesOnce(tool: Tool, st: State, w: PathWork) {
    var g := tool(ToolInput(st.ctx.question, st.ctx.tenantId, st.ctx.customerId, st.ctx.threadId));
    && |w.calls| == |w.subresults| == 1 && Primary(w.subresults) == Some(w.subresults[0])
    && w.subresults[0].answer == g.answer && w.subresults[0].confidence == g.confidence
    && w.coverage.required == [] && w.coverage.ratio == 1.0 && w.missing == [] && w.interrupt.None?
    && Notes(w.events) == Notes(st.events) + Notes(g.events)
    && (Numbered(st.events) ==> Numbered(w.events))
    && st.guardrails <= w.guardrails && |w.guardrails| == |st.guardrails| + |g.guardrails|
  }

  lemma GenericSearchesOnce(tool: Tool, st: State)
    ensures SearchesOnce(tool, st, GenericWork(tool, st))
  {
    var g := Ask(tool, st.ctx, Subquestion(PRIMARY, st.ctx.question));
    AppendedNotes(st.events, Notes(g.events));
    if Numbered(st.events) {
      AppendKeepsNumbered(st.events, Notes(g.events));
    }
  }

  method SearchGenerically(tool: Tool, st: State) returns (w: PathWork)
    ensures SearchesOnce(tool, st, w)
    ensures w == GenericWork(tool, st)
  {
    GenericSearchesOnce(tool, st);
    var sq := Subquestion(PRIMARY, st.ctx.question);
    var g := Ask(tool, st.ctx, sq);
    assert [] + Notes(g.events) == Notes(g.events);
    var events := CopyEvents(st.events, st.events, [], g.events);
    w := PathWork([SubResultOf(sq, g)], g.citations, Coverage([], [], 1.0), map[], [], None,
                  st.guardrails + Wrapped(g.guardrails), events, [CallOf(g)], []);
  }

  method WorkOnProfile(p: Profile, tool: Tool, st: State) returns (w: PathWork)
    ensures w == ProfileWork(p, tool, st)
  {
    var required, calls, subresults, guardrails, events := ExecuteProfile(p, tool, st.ctx, st.events, st.guardrails);
    var v := ValidateProfile(p, st.ctx, required, subresults, guardrails, events);
    var lists := CitationLists(subresults);
    var citations := MergeCitations(lists);
    w := PathWork(subresults, citations, v.coverage, map[], v.missing, v.interrupt, v.guardrails, v.events, calls, []);
  }

  // ----- what the result means

  /** On every path there is an interrupt exactly if a required dimension is missing, and that is when the run asks
      for a review. */
  lemma ReviewExactlyWhenMissing(profiles: seq<Profile>, tool: Tool, ctx: Context, thread: Thread)
    ensures var h := Supervised(profiles, tool, ctx, thread);
            && (h.RequiresReview() <==> h.result.missing != [])
            && (h.Status() == "needs_review" <==> h.RequiresReview())
  {}

  /** The citations of the result are the merge over all answers. They are those of the state too, exactly if the
      path has a profile or the search gave no citation key twice. */
  lemma {:induction false} CitationsAgreeExactlyWhen(
    profiles: seq<Profile>, tool: Tool, ctx: Context, thread: Thread)
    ensures var st := Routed(profiles, ctx, thread);
            var w, h := Worked(profiles, tool, st), Supervised(profiles, tool, ctx, thread);
            && h.result.citations == Dedup(Flatten(CitationsOf(w.subresults)))
            && (h.result.citations == w.citations <==>
                  !PathOf(profiles, st).GenericPath? || NoKeyTwice(w.citations))
  {
    var st := Routed(profiles, ctx, thread);
    match PathOf(profiles, st)
    case MixedPath => CitationsAgree(profiles, tool, st);
    case ProfilePath(_) =>
    case GenericPath => GenericCitations(tool, st);
  }

  lemma GenericCitations(tool: Tool, st: State)
    ensures var w := GenericWork(tool, st);
            && FinalCitations([], w.subresults) == Dedup(w.citations)
            && (Dedup(w.citations) == w.citations <==> NoKeyTwice(w.citations))
  {
    var w := GenericWork(tool, st);
    assert CitationsOf(w.subresults) == [w.citations];
    FlattenOne(w.citations);
    DedupIsSelfExactlyWhen(w.citations);
  }

  /** A search on the generic path that gives the same citation twice: the state has both, the result one. */
  lemma RepeatedCitationIsMerged(
    profiles: seq<Profile>, tool: Tool, ctx: Context, thread: Thread, c: Citation)
    requires PathOf(profiles, Routed(profiles, ctx, thread)).GenericPath?
    requires Ask(tool, ctx, Subquestion(PRIMARY, ctx.question)).citations == [c, c]
    ensures Worked(profiles, tool, Routed(profiles, ctx, thread)).citations == [c, c]
    ensures Supervised(profiles, tool, ctx, thread).result.citations == [c]
  {
    GenericCitations(tool, Routed(profiles, ctx, thread));
    PairMerges(c);
  }

  lemma {:induction false} SumWithin(subresults: seq<SubResult>)
    requires forall i :: 0 <= i < |subresults| ==> 0.0 <= subresults[i].confidence <= 1.0
    ensures 0.0 <= SumConfidence(subresults) <= |subresults| as real
  {
    if subresults != [] {
      SumWithin(subresults[..|subresults| - 1]);
    }
  }

  lemma Round4Within(x: real)
    requires 0.0 <= x <= 1.0
    ensures 0.0 <= Round4(x) <= 1.0
  {
    RoundBounds(x * 10000.0);
  }

  lemma QuotientWithinOne(x: real, n: nat)
    requires n > 0 && 0.0 <= x <= n as real
    ensures 0.0 <= x / n as real <= 1.0
  {}

  lemma NotNegative(x: real, y: real)
    requires x >= 0.0 && y >= 0.0
    ensures x * y >= 0.0
  {}

  lemma ProductWithinOne(x: real, y: real)
    requires 0.0 <= x <= 1.0 && 0.0 <= y <= 1.0
    ensures 0.0 <= x * y <= 1.0
  {
    NotNegative(x, y);
    NotNegative(1.0 - x, y);
    assert (1.0 - x) * y == y - x * y;
  }

  lemma AverageWithin(subresults: seq<SubResult>)
    requires forall i :: 0 <= i < |subresults| ==> 0.0 <= subresults[i].confidence <= 1.0
    ensures 0.0 <= AverageConfidence(subresults) <= 1.0
  {
    if subresults != [] {
      SumWithin(subresults);
      QuotientWithinOne(SumConfidence(subresults), |subresults|);
      Round4Within(SumConfidence(subresults) / |subresults| as real);
    }
  }

  lemma RoundedProductWithin(x: real, y: real)
    requires 0.0 <= x <= 1.0 && 0.0 <= y <= 1.0
    ensures 0.0 <= RoundedProduct(x, y) <= 1.0
  {
    ProductWithinOne(x, y);
    Round4Within(x * y);
  }

  /** Confidences between 0 and 1 average and shrink to one between 0 and 1. */
  lemma ConfidenceWithin(subresults: seq<SubResult>, coverage: Coverage)
    requires forall i :: 0 <= i < |subresults| ==> 0.0 <= subresults[i].confidence <= 1.0
    requires 0.0 <= coverage.ratio <= 1.0
    ensures 0.0 <= FinalConfidence(subresults, coverage) <= 1.0
  {
    AverageWithin(subresults);
    RoundedProductWithin(AverageConfidence(subresults), AtLeastHalf(coverage.ratio));
  }
}
