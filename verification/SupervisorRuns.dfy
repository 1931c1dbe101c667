/** The supervisor from routing to the final result: the mixed totals, the single-profile path, the timeline. */
module SupervisorRuns {
  import opened Values
  import opened GraphEngine
  import opened Citations
  import opened PolicyProfiles
  import opened PolicySupervisor
  import opened MixedExecution
  import opened CoverageLaws

  // ----- the mixed totals conserve coverage

  lemma {:induction false} FlaggedConcat(a: seq<string>, af: seq<bool>, b: seq<string>, bf: seq<bool>, wanted: bool)
    requires |a| == |af| && |b| == |bf|
    ensures Flagged(a + b, af + bf, wanted) == Flagged(a, af, wanted) + Flagged(b, bf, wanted)
  {
    if b == [] {
      assert a + b == a && af + bf == af;
    } else {
      var n := |b| - 1;
      assert (a + b)[..|a| + n] == a + b[..n] && (af + bf)[..|a| + n] == af + bf[..n];
      FlaggedConcat(a, af, b[..n], bf[..n], wanted);
    }
  }

  lemma {:induction false} FlaggedPrefix(domain: string, items: seq<string>, flags: seq<bool>, wanted: bool)
    requires |items| == |flags|
    ensures Flagged(Prefix(domain, items), flags, wanted) == Prefix(domain, Flagged(items, flags, wanted))
  {
    if items != [] {
      var n := |items| - 1;
      FlaggedPrefix(domain, items[..n], flags[..n], wanted);
      assert Prefix(domain, items)[..n] == Prefix(domain, items[..n]);
    }
  }

  lemma SplitsAdd(required: seq<string>, covered: seq<string>, missing: seq<string>,
                  domain: string, r: seq<string>, c: seq<string>, m: seq<string>)
    requires Splits(required, covered, missing) && Splits(r, c, m)
    ensures Splits(required + Prefix(domain, r), covered + Prefix(domain, c), missing + Prefix(domain, m))
  {
    var f: seq<bool> :| |f| == |required| && covered == Flagged(required, f, true) &&
      missing == Flagged(required, f, false);
    var g: seq<bool> :| |g| == |r| && c == Flagged(r, g, true) && m == Flagged(r, g, false);
    FlaggedPrefix(domain, r, g, true);
    FlaggedPrefix(domain, r, g, false);
    FlaggedConcat(required, f, Prefix(domain, r), g, true);
    FlaggedConcat(required, f, Prefix(domain, r), g, false);
    assert |f + g| == |required + Prefix(domain, r)|;
  }

  ghost predicate AllExact(planned: seq<Profile>, q: string) {
    forall i :: 0 <= i < |planned| ==> Exact(planned[i], q)
  }

  ghost predicate Interrupts(p: Profile, tool: Tool, ctx: Context) {
    WorkOn(p, tool, ctx).report.interrupt.Some?
  }

  ghost predicate SomeInterrupt(planned: seq<Profile>, tool: Tool, ctx: Context) {
    AnyOf(planned, p => Interrupts(p, tool, ctx))
  }

  /** What the totals keep, report after report. */
  ghost predicate Conserved(t: Totals) {
    Splits(t.required, t.covered, t.missing)
  }

  lemma AddConserves(t: Totals, p: Profile, tool: Tool, ctx: Context)
    requires Conserved(t) && Exact(p, ctx.question)
    ensures Conserved(SerialStep(t, p, tool, ctx))
  {
    var r := WorkOn(p, tool, ctx).report;
    ReportConservesCoverage(p, tool, ctx);
    SplitsAdd(t.required, t.covered, t.missing, p.domain, r.coverage.required, r.coverage.covered, r.missing);
  }

  lemma AllExactSplit(planned: seq<Profile>, q: string)
    requires planned != [] && AllExact(planned, q)
    ensures AllExact(planned[..|planned| - 1], q) && Exact(planned[|planned| - 1], q)
  {}

  lemma SerialUnfolds(start: Totals, planned: seq<Profile>, tool: Tool, ctx: Context)
    requires planned != []
    ensures SerialLoop(start, planned, tool, ctx) ==
            SerialStep(SerialLoop(start, planned[..|planned| - 1], tool, ctx), planned[|planned| - 1], tool, ctx)
  {}

  lemma {:induction false} LoopConserves(start: Totals, planned: seq<Profile>, tool: Tool, ctx: Context)
    requires Conserved(start) && AllExact(planned, ctx.question)
    ensures Conserved(SerialLoop(start, planned, tool, ctx))
  {
    if planned != [] {
      var front, last := planned[..|planned| - 1], planned[|planned| - 1];
      AllExactSplit(planned, ctx.question);
      LoopConserves(start, front, tool, ctx);
      SerialUnfolds(start, planned, tool, ctx);
      StepConserves(SerialLoop(start, front, tool, ctx), last, tool, ctx, SerialLoop(start, planned, tool, ctx));
    }
  }

  lemma StepConserves(t: Totals, p: Profile, tool: Tool, ctx: Context, after: Totals)
    requires Conserved(t) && Exact(p, ctx.question) && after == SerialStep(t, p, tool, ctx)
    ensures Conserved(after)
  {
    AddConserves(t, p, tool, ctx);
  }

  lemma MissingOfStep(t: Totals, p: Profile, tool: Tool, ctx: Context)
    ensures SerialStep(t, p, tool, ctx).missing == [] <==> t.missing == [] && !Interrupts(p, tool, ctx)
  {}

  lemma {:induction false} LoopMissing(start: Totals, planned: seq<Profile>, tool: Tool, ctx: Context)
    requires start.missing == []
    ensures SerialLoop(start, planned, tool, ctx).missing != [] <==> SomeInterrupt(planned, tool, ctx)
  {
    if planned != [] {
      var n := |planned| - 1;
      LoopMissing(start, planned[..n], tool, ctx);
      MissingOfStep(SerialLoop(start, planned[..n], tool, ctx), planned[n], tool, ctx);
      AnyOfSplit(planned, p => Interrupts(p, tool, ctx));
    }
  }

  /** The domain-prefixed lists of the mixed result split like those of the single reports, its ratio is in
      [0, 1], and it has an interrupt exactly if some profile has one, which is if something is missing. */
  lemma {:induction false} MixedConservesCoverage(profiles: seq<Profile>, tool: Tool, st: State)
    requires AllExact(PlannedProfiles(profiles, st), st.ctx.question)
    ensures var m := Serial(profiles, tool, st);
            && Splits(m.required, m.coverage.covered, m.missing)
            && |m.coverage.covered| + |m.missing| == |m.required|
            && 0.0 <= m.coverage.ratio <= 1.0
            && (m.coverage.ratio == 1.0 <==> 20000 * |m.missing| <= |m.required|)
            && (m.interrupt.Some? <==> m.missing != [])
            && (m.interrupt.Some? <==> SomeInterrupt(PlannedProfiles(profiles, st), tool, st.ctx))
  {
    var planned := PlannedProfiles(profiles, st);
    assert Conserved(Begin(st)) by {
      var none: seq<bool> := [];
      assert Flagged([], none, true) == [] && Flagged([], none, false) == [];
    }
    LoopConserves(Begin(st), planned, tool, st.ctx);
    LoopMissing(Begin(st), planned, tool, st.ctx);
    var t := SerialLoop(Begin(st), planned, tool, st.ctx);
    SplitSizes(t.required, t.covered, t.missing);
    RatioBounds(|t.required|, |t.covered|);
    RatioIsOneExactlyWhen(|t.required|, |t.covered|);
  }

  // ----- citations

  ghost function ReportCitations(reports: seq<Report>): seq<seq<Citation>> {
    seq(|reports|, i requires 0 <= i < |reports| => reports[i].citations)
  }

  lemma PrefixKeepsCitations(domain: string, subresults: seq<SubResult>)
    ensures CitationsOf(PrefixResults(domain, subresults)) == CitationsOf(subresults)
  {}

  lemma CitationsConcat(a: seq<SubResult>, b: seq<SubResult>)
    ensures Flatten(CitationsOf(a + b)) == Flatten(CitationsOf(a)) + Flatten(CitationsOf(b))
  {
    assert CitationsOf(a + b) == CitationsOf(a) + CitationsOf(b);
    FlattenAppend(CitationsOf(a), CitationsOf(b));
  }

  lemma ReportsConcat(reports: seq<Report>, r: Report)
    ensures Flatten(ReportCitations(reports + [r])) == Flatten(ReportCitations(reports)) + r.citations
  {
    assert ReportCitations(reports + [r]) == ReportCitations(reports) + [r.citations];
    FlattenAppend(ReportCitations(reports), [r.citations]);
    FlattenOne(r.citations);
  }

  /** Equal up to duplicates stays so when the same list, deduplicated or not, is added. */
  lemma DedupCongruent(a: seq<Citation>, b: seq<Citation>, more: seq<Citation>)
    requires Dedup(a) == Dedup(b)
    ensures Dedup(a + Dedup(more)) == Dedup(b + more)
  {
    DedupParts(a, more);
    DedupParts(b, more);
  }

  /** The citations gathered so far are those of the reports, and up to duplicates those of the subresults. */
  ghost predicate Gathered(t: Totals) {
    && t.citations == Flatten(ReportCitations(t.reports))
    && Dedup(t.citations) == Dedup(Flatten(CitationsOf(t.subresults)))
  }

  lemma StepGathers(t: Totals, p: Profile, tool: Tool, ctx: Context)
    requires Gathered(t)
    ensures Gathered(SerialStep(t, p, tool, ctx))
  {
    var r := WorkOn(p, tool, ctx).report;
    ReportsConcat(t.reports, r);
    CitationsConcat(t.subresults, PrefixResults(p.domain, r.subresults));
    PrefixKeepsCitations(p.domain, r.subresults);
    DedupCongruent(t.citations, Flatten(CitationsOf(t.subresults)), Flatten(CitationsOf(r.subresults)));
  }

  lemma {:induction false} LoopGathers(start: Totals, planned: seq<Profile>, tool: Tool, ctx: Context)
    requires Gathered(start)
    ensures Gathered(SerialLoop(start, planned, tool, ctx))
  {
    if planned != [] {
      LoopGathers(start, planned[..|planned| - 1], tool, ctx);
      StepGathers(SerialLoop(start, planned[..|planned| - 1], tool, ctx), planned[|planned| - 1], tool, ctx);
    }
  }

  // ----- the final node

  /** The citations of the final result: from the reports if there are any, else from the subresults. */
  ghost function FinalCitations(reports: seq<Report>, subresults: seq<SubResult>): seq<Citation> {
    Dedup(Flatten(if reports != [] then ReportCitations(reports) else CitationsOf(subresults)))
  }

  function GraphEndNote(specialist: string, interrupted: bool, ratio: real, planned: seq<string>): Note {
    Note(GraphEnd, "policy_supervisor_finalize",
         map["specialist" := Str(specialist), "requires_review" := Bool(interrupted), "coverage_ratio" := Real(ratio),
             "planned_domains" := Strings(planned)])
  }

  /** The final result, the state and the subresults all have the same citations. */
  lemma {:induction false} CitationsAgree(profiles: seq<Profile>, tool: Tool, st: State)
    ensures var m := Serial(profiles, tool, st);
            && FinalCitations(m.reports, m.subresults) == m.citations
            && m.citations == Dedup(Flatten(CitationsOf(m.subresults)))
  {
    var planned := PlannedProfiles(profiles, st);
    assert ReportCitations([]) == [] && CitationsOf([]) == [];
    LoopGathers(Begin(st), planned, tool, st.ctx);
  }

  // ----- the timeline

  lemma {:induction false} LoopKeepsNumbered(start: Totals, planned: seq<Profile>, tool: Tool, ctx: Context)
    requires Numbered(start.events)
    ensures Numbered(SerialLoop(start, planned, tool, ctx).events)
  {
    if planned != [] {
      var front, p := planned[..|planned| - 1], planned[|planned| - 1];
      LoopKeepsNumbered(start, front, tool, ctx);
      AppendKeepsNumbered(SerialLoop(start, front, tool, ctx).events, WorkOn(p, tool, ctx).notes);
    }
  }

  lemma OneNoteKeepsNumbered(events: seq<Event>, note: Note)
    requires Numbered(events)
    ensures Numbered(AppendEvent(events, note))
  {
    NextOfNumbered(events);
  }

  /** A run's timeline that starts out as 0, 1, 2, ... reaches the end of the run in the same shape. */
  lemma TimelineStaysNumbered(profiles: seq<Profile>, tool: Tool, st: State)
    requires Numbered(st.events)
    ensures var m := Serial(profiles, tool, st);
            Numbered(m.events) &&
            Numbered(AppendEvent(m.events,
                                 GraphEndNote(st.specialist, m.interrupt.Some?, m.coverage.ratio, st.plannedDomains)))
  {
    var planned := PlannedProfiles(profiles, st);
    LoopKeepsNumbered(Begin(st), planned, tool, st.ctx);
    var t := SerialLoop(Begin(st), planned, tool, st.ctx);
    OneNoteKeepsNumbered(t.events, MixedPause(t.missing, t.reports));
    var m := Finish(t, st.ctx);
    OneNoteKeepsNumbered(m.events, GraphEndNote(st.specialist, m.interrupt.Some?, m.coverage.ratio, st.plannedDomains));
  }

  // ----- routing

  datatype Route = Route(
    policyDomain: string, specialist: string, plannedDomains: seq<string>, specialistPlan: seq<string>,
    confidence: real, fallbackReason: Option<string>)

  const NO_SIGNAL := "no policy specialist signal detected; fallback to generic policy path"

  function DomainsOf(matched: seq<Profile>): seq<string> {
    seq(|matched|, i requires 0 <= i < |matched| => matched[i].domain)
  }

  predicate AnySpecific(domains: seq<string>) {
    exists i :: 0 <= i < |domains| && domains[i] != GENERIC
  }

  function SpecialistsOf(matched: seq<Profile>): seq<string> {
    seq(|matched|, i requires 0 <= i < |matched| => matched[i].specialist)
  }

  /** `_route_node`: several matching profiles make the question a mixed one. */
  function RouteNode(profiles: seq<Profile>, q: string): Route {
    var matched := MatchPolicyProfiles(profiles, q);
    if |matched| == 0 then
      Route(GENERIC, "generic_policy_agent", [GENERIC], ["generic_policy_agent"], 0.55, Some(NO_SIGNAL))
    else
      var planned, specialists := DomainsOf(matched), SpecialistsOf(matched);
      if |planned| > 1 && AnySpecific(planned) then
        Route("mixed", "mixed_policy_supervisor", planned, specialists, matched[0].confidence, None)
      else Route(matched[0].domain, matched[0].specialist, planned, specialists, matched[0].confidence, None)
  }

  lemma {:induction false} MatchedAreProfiles(profiles: seq<Profile>, q: string)
    ensures forall p :: p in MatchPolicyProfiles(profiles, q) ==> p in profiles
  {
    if profiles != [] {
      MatchedAreProfiles(profiles[..|profiles| - 1], q);
    }
  }

  lemma {:induction false} MatchedAreKnown(profiles: seq<Profile>, matched: seq<Profile>)
    requires DistinctDomains(profiles)
    requires forall i :: 0 <= i < |matched| ==> matched[i] in profiles && matched[i].domain != GENERIC
    ensures KnownProfiles(profiles, DomainsOf(matched)) == matched
  {
    if matched != [] {
      var n := |matched| - 1;
      assert DomainsOf(matched)[..n] == DomainsOf(matched[..n]);
      MatchedAreKnown(profiles, matched[..n]);
      LookupFindsItself(profiles, matched[n]);
      assert matched == matched[..n] + [matched[n]];
    }
  }

  lemma MatchedDomains(profiles: seq<Profile>, q: string)
    requires forall p :: p in profiles ==> p.domain !in {"", GENERIC, "mixed"}
    ensures var matched := MatchPolicyProfiles(profiles, q);
            forall i :: 0 <= i < |matched| ==>
              matched[i] in profiles && matched[i].domain != GENERIC && matched[i].domain != "mixed"
  {
    MatchedAreProfiles(profiles, q);
  }

  lemma RouteOfMatches(profiles: seq<Profile>, q: string)
    requires var matched := MatchPolicyProfiles(profiles, q);
             |matched| > 0 ==> matched[0].domain != GENERIC && matched[0].domain != "mixed"
    ensures var route, matched := RouteNode(profiles, q), MatchPolicyProfiles(profiles, q);
            && (route.policyDomain == "mixed" <==> |matched| >= 2)
            && (|matched| >= 1 ==> route.plannedDomains == DomainsOf(matched))
  {
    var matched := MatchPolicyProfiles(profiles, q);
    assert GENERIC != "mixed";
    if |matched| > 0 {
      var planned := DomainsOf(matched);
      assert planned[0] != GENERIC;
      assert AnySpecific(planned);
    }
  }

  /** The mixed route is taken exactly if at least two profiles match, and then the planned profiles are the
      matching ones: the fan-out is not empty, so the reducer does run. */
  lemma MixedRoute(profiles: seq<Profile>, st: State, q: string)
    requires DistinctDomains(profiles)
    requires forall p :: p in profiles ==> p.domain !in {"", GENERIC, "mixed"}
    requires st.plannedDomains == RouteNode(profiles, q).plannedDomains
    ensures var route, matched := RouteNode(profiles, q), MatchPolicyProfiles(profiles, q);
            && (route.policyDomain == "mixed" <==> |matched| >= 2)
            && (route.policyDomain == "mixed" ==>
                  PlannedProfiles(profiles, st) == matched && FanOut(profiles, st) == DomainsOf(matched))
  {
    var matched := MatchPolicyProfiles(profiles, q);
    MatchedDomains(profiles, q);
    RouteOfMatches(profiles, q);
    MatchedAreKnown(profiles, matched);
  }

  lemma {:induction false} MatchedAreFew(profiles: seq<Profile>, q: string)
    ensures |MatchPolicyProfiles(profiles, q)| <= |profiles|
  {
    if profiles != [] {
      MatchedAreFew(profiles[..|profiles| - 1], q);
    }
  }

  ghost predicate ShortLists(planned: seq<Profile>, q: string, size: nat) {
    forall i :: 0 <= i < |planned| ==> |RequiredOf(planned[i], q)| <= size
  }

  lemma {:induction false} LoopRequires(start: Totals, planned: seq<Profile>, tool: Tool, ctx: Context, size: nat)
    requires ShortLists(planned, ctx.question, size)
    ensures |SerialLoop(start, planned, tool, ctx).required| <= |start.required| + |planned| * size
  {
    if planned != [] {
      var n := |planned| - 1;
      var t := SerialLoop(start, planned[..n], tool, ctx);
      LoopRequires(start, planned[..n], tool, ctx, size);
      StepRequires(t, planned[n], tool, ctx);
      OneMoreList(|start.required|, |t.required|, |RequiredOf(planned[n], ctx.question)|, n, size);
    }
  }

  lemma OneMoreList(start: nat, before: nat, more: nat, n: nat, size: nat)
    requires before <= start + n * size && more <= size
    ensures before + more <= start + (n + 1) * size
  {
    assert (n + 1) * size == n * size + size;
  }

  lemma StepRequires(t: Totals, p: Profile, tool: Tool, ctx: Context)
    ensures |SerialStep(t, p, tool, ctx).required| == |t.required| + |RequiredOf(p, ctx.question)|
  {}

  /** The ratio reads 1 exactly if nothing is missing, that is, if there is no interrupt. */
  ghost predicate MixedRatioTells(m: Mixed) {
    (m.coverage.ratio == 1.0 <==> m.missing == []) && (m.interrupt.None? <==> m.missing == [])
  }

  lemma FewRequiredTell(profiles: seq<Profile>, tool: Tool, st: State)
    requires AllExact(PlannedProfiles(profiles, st), st.ctx.question)
    requires |Serial(profiles, tool, st).required| < 20000
    ensures MixedRatioTells(Serial(profiles, tool, st))
  {
    MixedConservesCoverage(profiles, tool, st);
  }

  /** A matching built-in profile asks exactly its required dimensions, of which there are at most 5. */
  lemma BuiltInIsExactAndShort(hotel: Texts, flight: Texts, reimbursement: Texts, p: Profile, q: string)
    requires p in BuiltInProfiles(hotel, flight, reimbursement)
    ensures Exact(p, q) && |RequiredOf(p, q)| <= 5
  {
    ProfilesAreExact(hotel, flight, reimbursement, q);
    RequiredIsShort(hotel, flight, reimbursement, p, q);
  }

  lemma MatchedBuiltIns(hotel: Texts, flight: Texts, reimbursement: Texts, matched: seq<Profile>, q: string)
    requires matched == MatchPolicyProfiles(BuiltInProfiles(hotel, flight, reimbursement), q)
    ensures |matched| <= 3 && AllExact(matched, q) && ShortLists(matched, q, 5)
  {
    var profiles := BuiltInProfiles(hotel, flight, reimbursement);
    MatchedAreFew(profiles, q);
    MatchedAreProfiles(profiles, q);
    forall i | 0 <= i < |matched| ensures Exact(matched[i], q) && |RequiredOf(matched[i], q)| <= 5 {
      assert matched[i] in profiles;
      BuiltInIsExactAndShort(hotel, flight, reimbursement, matched[i], q);
    }
  }

  /** For every question that is routed to the mixed path over the built-in profiles, whatever the tool answers, the
      ratio reads 1 exactly if nothing is missing, that is, if there is no interrupt. */
  lemma {:induction false} RoutedRatioTells(hotel: Texts, flight: Texts, reimbursement: Texts, tool: Tool, st: State)
    requires var route := RouteNode(BuiltInProfiles(hotel, flight, reimbursement), st.ctx.question);
             st.plannedDomains == route.plannedDomains && route.policyDomain == "mixed"
    ensures MixedRatioTells(Serial(BuiltInProfiles(hotel, flight, reimbursement), tool, st))
    ensures |Serial(BuiltInProfiles(hotel, flight, reimbursement), tool, st).required| <= 15
  {
    var profiles, q := BuiltInProfiles(hotel, flight, reimbursement), st.ctx.question;
    var matched := MatchPolicyProfiles(profiles, q);
    BuiltInProfilesAreDistinct(hotel, flight, reimbursement);
    MixedRoute(profiles, st, q);
    MatchedBuiltIns(hotel, flight, reimbursement, matched, q);
    LoopRequires(Begin(st), matched, tool, st.ctx, 5);
    FewRequiredTell(profiles, tool, st);
  }

  // ----- the path of a question with a single profile

  /** `_profile_fact_node`, `_profile_plan_node` and `_profile_execute_node` in turn. */
  method ExecuteProfile(p: Profile, tool: Tool, ctx: Context, startEvents: seq<Event>, startGuardrails: seq<Guardrail>)
    returns (required: seq<string>, calls: seq<ToolCall>, subresults: seq<SubResult>, guardrails: seq<Guardrail>,
             events: seq<Event>)
    ensures var a := AnswersTo(tool, ctx, SubquestionsOf(p, ctx.question));
            && required == RequiredOf(p, ctx.question)
            && calls == a.calls && subresults == a.subresults && guardrails == startGuardrails + a.guardrails
            && events == AppendAll(startEvents,
                 [FactNote(ctx, p, p.extractFacts(ctx.question), required)] + a.notes + [EndNote(p, |a.subresults|)])
  {
    var facts := p.extractFacts(ctx.question);
    required := p.requiredDimensions(ctx.question, facts);
    var sqs := p.buildSubquestions(ctx.question, facts, required);
    var factNote := FactNote(ctx, p, facts, required);
    AppendOne(startEvents, [], factNote);
    assert [] + [factNote] == [factNote];
    events := AppendEvent(startEvents, factNote);
    calls, subresults, guardrails, events := AskAll(tool, ctx, sqs, events, startGuardrails);
    ghost var a := AnswersTo(tool, ctx, sqs);
    AppendAllTwice(startEvents, [factNote], a.notes);
    AppendOne(startEvents, [factNote] + a.notes, EndNote(p, |subresults|));
    events := AppendEvent(events, EndNote(p, |subresults|));
  }

  datatype Validation = Validation(coverage: Coverage, missing: seq<string>, interrupt: Option<Interrupt>,
                                   guardrails: seq<Guardrail>, events: seq<Event>)

  /** `_profile_validate_node`. */
  function ValidateProfile(p: Profile, ctx: Context, required: seq<string>, subresults: seq<SubResult>,
                           guardrails: seq<Guardrail>, events: seq<Event>): Validation
  {
    var covered := CoveredDimensions(subresults, ctx.threshold);
    var missing := Without(required, covered);
    Validation(
      CoverageOf(required, covered), missing, InterruptFor(p.interruptReason, missing),
      guardrails + InterruptGuardrail(p, ctx, missing),
      if missing == [] then events
      else AppendEvent(events, PauseNote(p.domain + "_completeness_validator", p.interruptReason, missing)))
  }

  /** Answered node by node, a question of one profile gets the same coverage, missing dimensions, interrupt,
      guardrail entries and citations as the report that the mixed modes would make for it; on the timeline
      the two differ in one thing only, the order of the PAUSE and the closing NODE_END. */
  lemma {:induction false} SingleProfileAgreesWithReport(
    p: Profile, tool: Tool, ctx: Context, startEvents: seq<Event>, startGuardrails: seq<Guardrail>)
    ensures var a, work := AnswersTo(tool, ctx, SubquestionsOf(p, ctx.question)), WorkOn(p, tool, ctx);
            var before := [FactNote(ctx, p, p.extractFacts(ctx.question), RequiredOf(p, ctx.question))] + a.notes;
            var end := EndNote(p, |a.subresults|);
            var v := ValidateProfile(p, ctx, RequiredOf(p, ctx.question), a.subresults,
                       startGuardrails + a.guardrails, AppendAll(startEvents, before + [end]));
            && v.coverage == work.report.coverage && v.missing == work.report.missing &&
               v.interrupt == work.report.interrupt
            && Dedup(Flatten(CitationsOf(a.subresults))) == work.report.citations
            && v.guardrails == startGuardrails + work.guardrails
            && work.notes == before + InterruptNote(p, v.missing) + [end]
            && v.events == AppendAll(startEvents, before + [end] + InterruptNote(p, v.missing))
  {
    var a := AnswersTo(tool, ctx, SubquestionsOf(p, ctx.question));
    var before := [FactNote(ctx, p, p.extractFacts(ctx.question), RequiredOf(p, ctx.question))] + a.notes;
    var end := EndNote(p, |a.subresults|);
    var missing := WorkOn(p, tool, ctx).report.missing;
    assert startGuardrails + a.guardrails + InterruptGuardrail(p, ctx, missing) ==
           startGuardrails + (a.guardrails + InterruptGuardrail(p, ctx, missing));
    if missing != [] {
      AppendOne(startEvents, before + [end],
                PauseNote(p.domain + "_completeness_validator", p.interruptReason, missing));
    } else {
      assert before + [end] + [] == before + [end];
    }
  }
}
