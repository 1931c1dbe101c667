/** The mixed-domain part of the supervisor: a serial loop, and a parallel fan-out with a reducer. */
module MixedExecution {
  import opened Values
  import opened GraphEngine
  import opened Citations
  import opened PolicyProfiles
  import opened PolicySupervisor

  /** The part of the supervisor's state that the mixed nodes read. */
  datatype State = State(
    ctx: Context, plannedDomains: seq<string>, specialist: string, policyDomain: string,
    calls: seq<ToolCall>, guardrails: seq<Guardrail>, events: seq<Event>)

  const GENERIC := "generic"
  const MIXED_REASON := "mixed-domain policy answer does not cover all required dimensions"

  function ActiveProfile(profiles: seq<Profile>, st: State): Option<Profile> {
    if st.specialist != "" && BySpecialist(profiles, st.specialist).Some? then BySpecialist(profiles, st.specialist)
    else if st.policyDomain != "" then ByDomain(profiles, st.policyDomain)
    else None
  }

  function KnownProfiles(profiles: seq<Profile>, domains: seq<string>): seq<Profile> {
    if domains == [] then []
    else
      var d := domains[|domains| - 1];
      var found := if d == GENERIC then None else ByDomain(profiles, d);
      KnownProfiles(profiles, domains[..|domains| - 1]) + (if found.Some? then [found.value] else [])
  }

  function PlannedProfiles(profiles: seq<Profile>, st: State): seq<Profile> {
    var known := KnownProfiles(profiles, st.plannedDomains);
    if |known| > 0 then known
    else
      var active := ActiveProfile(profiles, st);
      if active.Some? then [active.value] else []
  }

  // ----- what both modes accumulate

  function Prefix(domain: string, dimensions: seq<string>): seq<string> {
    seq(|dimensions|, i requires 0 <= i < |dimensions| => domain + "." + dimensions[i])
  }

  function PrefixResults(domain: string, subresults: seq<SubResult>): seq<SubResult> {
    seq(|subresults|, i requires 0 <= i < |subresults| =>
      subresults[i].(dimension := domain + "." + subresults[i].dimension))
  }

  datatype Totals = Totals(
    reports: seq<Report>, calls: seq<ToolCall>, guardrails: seq<Guardrail>, events: seq<Event>,
    subresults: seq<SubResult>, citations: seq<Citation>, perDomain: map<string, Coverage>,
    required: seq<string>, covered: seq<string>, missing: seq<string>)

  function Begin(st: State): Totals {
    Totals([], st.calls, st.guardrails, st.events, [], [], map[], [], [], [])
  }

  /** One more report, with the guardrail list and the timeline as they are after it. */
  function Add(
    t: Totals, domain: string, report: Report, calls: seq<ToolCall>, guardrails: seq<Guardrail>,
    events: seq<Event>): Totals
  {
    Totals(
      t.reports + [report], t.calls + calls, guardrails, events,
      t.subresults + PrefixResults(domain, report.subresults),
      t.citations + report.citations,
      t.perDomain[domain := report.coverage],
      t.required + Prefix(domain, report.coverage.required),
      t.covered + Prefix(domain, report.coverage.covered),
      t.missing + Prefix(domain, report.missing))
  }

  datatype Mixed = Mixed(
    facts: map<string, Facts>, required: seq<string>, subresults: seq<SubResult>, citations: seq<Citation>,
    coverage: Coverage, perDomain: map<string, Coverage>, missing: seq<string>, guardrails: seq<Guardrail>,
    events: seq<Event>, calls: seq<ToolCall>, interrupt: Option<Interrupt>, reports: seq<Report>)

  function FactsByDomain(reports: seq<Report>): map<string, Facts> {
    if reports == [] then map[]
    else FactsByDomain(reports[..|reports| - 1])[reports[|reports| - 1].domain := reports[|reports| - 1].facts]
  }

  function Domains(reports: seq<Report>): seq<string> {
    seq(|reports|, i requires 0 <= i < |reports| => reports[i].domain)
  }

  function MixedPause(missing: seq<string>, reports: seq<Report>): Note {
    Note(Pause, "mixed_domain_completeness_validator",
         map["reason" := Str(MIXED_REASON), "missing_dimensions" := Strings(missing),
             "domains" := Strings(Domains(reports))])
  }

  ghost function Finish(t: Totals, ctx: Context): Mixed {
    Mixed(
      FactsByDomain(t.reports), t.required, t.subresults, Dedup(t.citations),
      CoverageOf(t.required, t.covered), t.perDomain, t.missing,
      if t.missing == [] then t.guardrails
      else t.guardrails + [Interrupted(MIXED_REASON, t.missing, ctx.threadId, "mixed")],
      if t.missing == [] then t.events else AppendEvent(t.events, MixedPause(t.missing, t.reports)),
      t.calls, InterruptFor(MIXED_REASON, t.missing), t.reports)
  }

  /** The common end of both nodes. */
  method Conclude(t: Totals, ctx: Context) returns (m: Mixed)
    ensures m == Finish(t, ctx)
  {
    var guardrails, events := t.guardrails, t.events;
    if t.missing != [] {
      guardrails := guardrails + [Interrupted(MIXED_REASON, t.missing, ctx.threadId, "mixed")];
      events := AppendEvent(events, MixedPause(t.missing, t.reports));
    }
    FlattenOne(t.citations);
    var citations := MergeCitations([t.citations]);
    m := Mixed(FactsByDomain(t.reports), t.required, t.subresults, citations, CoverageOf(t.required, t.covered),
               t.perDomain, t.missing, guardrails, events, t.calls, InterruptFor(MIXED_REASON, t.missing), t.reports);
  }

  // ----- serial mode

  /** Each report starts from the timeline and the guardrail list that the one before it left. */
  ghost function SerialStep(t: Totals, p: Profile, tool: Tool, ctx: Context): Totals {
    var work := WorkOn(p, tool, ctx);
    Add(t, p.domain, work.report, work.calls, t.guardrails + work.guardrails, AppendAll(t.events, work.notes))
  }

  ghost function SerialLoop(start: Totals, planned: seq<Profile>, tool: Tool, ctx: Context): Totals {
    if planned == [] then start
    else SerialStep(SerialLoop(start, planned[..|planned| - 1], tool, ctx), planned[|planned| - 1], tool, ctx)
  }

  ghost function Serial(profiles: seq<Profile>, tool: Tool, st: State): Mixed {
    Finish(SerialLoop(Begin(st), PlannedProfiles(profiles, st), tool, st.ctx), st.ctx)
  }

  lemma SerialOneMore(start: Totals, planned: seq<Profile>, i: nat, tool: Tool, ctx: Context)
    requires i < |planned|
    ensures SerialLoop(start, planned[..i + 1], tool, ctx) ==
            SerialStep(SerialLoop(start, planned[..i], tool, ctx), planned[i], tool, ctx)
  {
    assert planned[..i + 1][..i] == planned[..i];
  }

  /** The body of the loop over the profiles. */
  method ExecuteOne(t: Totals, p: Profile, tool: Tool, ctx: Context) returns (t': Totals)
    ensures t' == SerialStep(t, p, tool, ctx)
  {
    var report, calls, guardrails, events := BuildProfileReport(p, tool, ctx, t.events, t.guardrails);
    t' := Add(t, p.domain, report, calls, guardrails, events);
  }

  /** `_mixed_execute_node`. */
  method MixedExecute(profiles: seq<Profile>, tool: Tool, st: State) returns (m: Mixed)
    ensures m == Serial(profiles, tool, st)
  {
    var planned, t := PlannedProfiles(profiles, st), Begin(st);
    for i := 0 to |planned|
      invariant t == SerialLoop(Begin(st), planned[..i], tool, st.ctx)
    {
      SerialOneMore(Begin(st), planned, i, tool, st.ctx);
      t := ExecuteOne(t, planned[i], tool, st.ctx);
    }
    assert planned[..|planned|] == planned;
    m := Conclude(t, st.ctx);
  }

  // ----- parallel mode

  /** What a worker writes for its domain. */
  datatype Bundle = Bundle(report: Report, calls: seq<ToolCall>, guardrails: seq<Guardrail>, events: seq<Event>)

  type Writes = map<string, Bundle>

  /** The domains of the `Send`s, one per planned profile. */
  function FanOut(profiles: seq<Profile>, st: State): seq<string> {
    var planned := PlannedProfiles(profiles, st);
    seq(|planned|, i requires 0 <= i < |planned| => planned[i].domain)
  }

  /** A worker starts from an empty timeline and an empty guardrail list. */
  ghost function WorkerBundle(p: Profile, tool: Tool, ctx: Context): Bundle {
    var work := WorkOn(p, tool, ctx);
    Bundle(work.report, work.calls, work.guardrails, AppendAll([], work.notes))
  }

  ghost function WorkerWrites(profiles: seq<Profile>, tool: Tool, ctx: Context, domain: string): Writes {
    var p := ByDomain(profiles, domain);
    if p.None? then map[] else map[domain := WorkerBundle(p.value, tool, ctx)]
  }

  /** `_mixed_profile_worker_node`. */
  method MixedProfileWorker(profiles: seq<Profile>, tool: Tool, ctx: Context, domain: string) returns (writes: Writes)
    ensures writes == WorkerWrites(profiles, tool, ctx, domain)
  {
    var p := ByDomain(profiles, domain);
    if p.None? {
      return map[];
    }
    var report, calls, guardrails, events := BuildProfileReport(p.value, tool, ctx, [], []);
    assert [] + WorkOn(p.value, tool, ctx).guardrails == WorkOn(p.value, tool, ctx).guardrails;
    writes := map[domain := Bundle(report, calls, guardrails, events)];
  }

  lemma WriteOneMore(existing: Writes, done: Writes, domain: string, b: Bundle)
    ensures (existing + done)[domain := b] == existing + done[domain := b]
  {}

  /** The entries of `all` for these domains. */
  ghost function Part(all: Writes, domains: set<string>): Writes
    requires domains <= all.Keys
  {
    map d | d in domains :: all[d]
  }

  lemma PartOneMore(all: Writes, domains: set<string>, domain: string)
    requires domains <= all.Keys && domain in all
    ensures Part(all, domains + {domain}) == Part(all, domains)[domain := all[domain]]
  {}

  lemma NothingWritten(existing: Writes, all: Writes)
    ensures existing + Part(all, {}) == existing
  {}

  lemma EverythingWritten(existing: Writes, all: Writes, written: set<string>)
    requires written == all.Keys
    ensures existing + Part(all, written) == existing + all
  {}

  /** The body of the loop over the new entries. */
  method WriteOne(base: Writes, ghost existing: Writes, new_: Writes, ghost written: set<string>, domain: string)
    returns (base': Writes)
    requires written <= new_.Keys && domain in new_ && base == existing + Part(new_, written)
    ensures base' == existing + Part(new_, written + {domain})
  {
    WriteOneMore(existing, Part(new_, written), domain, new_[domain]);
    PartOneMore(new_, written, domain);
    base' := base[domain := new_[domain]];
  }

  /** `_merge_parallel_reports`: the entries of `new` are written over a copy of `existing`. */
  method MergeParallelReports(existing: Writes, new_: Writes) returns (base: Writes)
    ensures base == existing + new_
  {
    base := existing;
    var rest := new_.Keys;
    ghost var written: set<string> := {};
    NothingWritten(existing, new_);
    while rest != {}
      invariant written <= new_.Keys && rest == new_.Keys - written
      invariant base == existing + Part(new_, written)
      decreases |rest|
    {
      var domain :| domain in rest;
      base := WriteOne(base, existing, new_, written, domain);
      rest := rest - {domain};
      written := written + {domain};
    }
    EverythingWritten(existing, new_, written);
  }

  /** The accumulator after these writes have arrived, in this order. */
  ghost function Arrive(existing: Writes, arrived: seq<Writes>): Writes {
    if arrived == [] then existing
    else Arrive(existing, arrived[..|arrived| - 1]) + arrived[|arrived| - 1]
  }

  /** What the workers for these domains write. */
  ghost function WritesOf(arrivals: seq<string>, profiles: seq<Profile>, tool: Tool, ctx: Context): seq<Writes> {
    seq(|arrivals|, i requires 0 <= i < |arrivals| => WorkerWrites(profiles, tool, ctx, arrivals[i]))
  }

  lemma ArriveOneMore(existing: Writes, arrivals: seq<string>, i: nat, profiles: seq<Profile>, tool: Tool, ctx: Context)
    requires i < |arrivals|
    ensures Arrive(existing, WritesOf(arrivals[..i + 1], profiles, tool, ctx)) ==
            Arrive(existing, WritesOf(arrivals[..i], profiles, tool, ctx)) +
              WorkerWrites(profiles, tool, ctx, arrivals[i])
  {
    var before, after := WritesOf(arrivals[..i], profiles, tool, ctx), WritesOf(arrivals[..i + 1], profiles, tool, ctx);
    assert after[..|after| - 1] == before;
  }

  ghost function ReduceStep(t: Totals, domain: string, writes: Writes): Totals {
    if domain !in writes then t
    else
      var b := writes[domain];
      Add(t, domain, b.report, b.calls, t.guardrails + b.guardrails, AppendAll(t.events, Notes(b.events)))
  }

  ghost function ReduceLoop(start: Totals, planned: seq<Profile>, writes: Writes): Totals {
    if planned == [] then start
    else ReduceStep(ReduceLoop(start, planned[..|planned| - 1], writes), planned[|planned| - 1].domain, writes)
  }

  ghost function Reduce(profiles: seq<Profile>, st: State, writes: Writes): Mixed {
    Finish(ReduceLoop(Begin(st), PlannedProfiles(profiles, st), writes), st.ctx)
  }

  /** `_mixed_reducer_node`: bundles in planned order, their events renumbered onto the supervisor's timeline. */
  method MixedReducer(profiles: seq<Profile>, st: State, writes: Writes) returns (m: Mixed)
    ensures m == Reduce(profiles, st, writes)
  {
    var planned, t := PlannedProfiles(profiles, st), Begin(st);
    for i := 0 to |planned|
      invariant t == ReduceLoop(Begin(st), planned[..i], writes)
    {
      assert planned[..i + 1][..i] == planned[..i];
      var domain := planned[i].domain;
      if domain !in writes {
        continue;
      }
      var b := writes[domain];
      assert [] + Notes(b.events) == Notes(b.events);
      var events := CopyEvents(t.events, t.events, [], b.events);
      t := Add(t, domain, b.report, b.calls, t.guardrails + b.guardrails, events);
    }
    assert planned[..|planned|] == planned;
    m := Conclude(t, st.ctx);
  }

  // ----- serial equals parallel

  /** The accumulator holds the bundle that was written for a domain, whatever the order, however often,
      and whatever it held before. */
  lemma {:induction false} ArrivedBundle(existing: Writes, arrived: seq<Writes>, domain: string, b: Bundle, i: nat)
    requires i < |arrived| && domain in arrived[i]
    requires forall j :: 0 <= j < |arrived| && domain in arrived[j] ==> arrived[j][domain] == b
    ensures domain in Arrive(existing, arrived) && Arrive(existing, arrived)[domain] == b
  {
    var n := |arrived| - 1;
    if i < n {
      ArrivedBundle(existing, arrived[..n], domain, b, i);
    }
  }

  lemma WorkerArrived(
    existing: Writes, arrivals: seq<string>, profiles: seq<Profile>, tool: Tool, ctx: Context, p: Profile)
    requires p.domain in arrivals && ByDomain(profiles, p.domain) == Some(p)
    ensures var writes := Arrive(existing, WritesOf(arrivals, profiles, tool, ctx));
            p.domain in writes && writes[p.domain] == WorkerBundle(p, tool, ctx)
  {
    var i :| 0 <= i < |arrivals| && arrivals[i] == p.domain;
    ArrivedBundle(existing, WritesOf(arrivals, profiles, tool, ctx), p.domain, WorkerBundle(p, tool, ctx), i);
  }

  /** A worker's private timeline carries exactly the notes of its work. */
  lemma WorkerNotes(p: Profile, tool: Tool, ctx: Context)
    ensures Notes(WorkerBundle(p, tool, ctx).events) == WorkOn(p, tool, ctx).notes
  {
    var notes := WorkOn(p, tool, ctx).notes;
    AppendedNotes([], notes);
    assert Notes([]) + notes == notes;
  }

  lemma {:induction false} LoopsAgree(start: Totals, planned: seq<Profile>, writes: Writes, tool: Tool, ctx: Context)
    requires forall i :: 0 <= i < |planned| ==>
               planned[i].domain in writes && writes[planned[i].domain] == WorkerBundle(planned[i], tool, ctx)
    ensures ReduceLoop(start, planned, writes) == SerialLoop(start, planned, tool, ctx)
  {
    if planned != [] {
      LoopsAgree(start, planned[..|planned| - 1], writes, tool, ctx);
      WorkerNotes(planned[|planned| - 1], tool, ctx);
    }
  }

  lemma {:induction false} KnownProfilesAreOwn(profiles: seq<Profile>, domains: seq<string>)
    requires DistinctDomains(profiles)
    ensures forall p :: p in KnownProfiles(profiles, domains) ==> ByDomain(profiles, p.domain) == Some(p)
  {
    if domains != [] {
      KnownProfilesAreOwn(profiles, domains[..|domains| - 1]);
    }
  }

  lemma PlannedProfilesAreOwn(profiles: seq<Profile>, st: State, p: Profile)
    requires DistinctDomains(profiles) && p in PlannedProfiles(profiles, st)
    ensures ByDomain(profiles, p.domain) == Some(p)
  {
    KnownProfilesAreOwn(profiles, st.plannedDomains);
    if p !in KnownProfiles(profiles, st.plannedDomains) {
      LookupFindsItself(profiles, p);
    }
  }

  /** Serial and parallel mode agree in every field, engine events with their numbers included: for every
      state, whatever the accumulator held before, and for every order in which the workers' writes arrive,
      even repeatedly or among others, as long as every planned domain arrives. */
  lemma {:induction false} SerialEqualsParallel(
    profiles: seq<Profile>, tool: Tool, st: State, existing: Writes, arrivals: seq<string>)
    requires DistinctDomains(profiles)
    requires forall d :: d in FanOut(profiles, st) ==> d in arrivals
    ensures Reduce(profiles, st, Arrive(existing, WritesOf(arrivals, profiles, tool, st.ctx))) ==
            Serial(profiles, tool, st)
  {
    var planned := PlannedProfiles(profiles, st);
    var writes := Arrive(existing, WritesOf(arrivals, profiles, tool, st.ctx));
    forall i | 0 <= i < |planned|
      ensures planned[i].domain in writes && writes[planned[i].domain] == WorkerBundle(planned[i], tool, st.ctx)
    {
      assert FanOut(profiles, st)[i] == planned[i].domain;
      PlannedProfilesAreOwn(profiles, st, planned[i]);
      WorkerArrived(existing, arrivals, profiles, tool, st.ctx, planned[i]);
    }
    LoopsAgree(Begin(st), planned, writes, tool, st.ctx);
  }

  // ----- the reducer of the accumulator field

  /** The reducer is documented to be commutative. It is exactly when the two writes agree where they overlap. */
  lemma MergeCommutesExactlyWhen(a: Writes, b: Writes)
    ensures a + b == b + a <==> forall d :: d in a && d in b ==> a[d] == b[d]
  {
    if a + b == b + a {
      forall d | d in a && d in b ensures a[d] == b[d] {
        assert (a + b)[d] == b[d] && (b + a)[d] == a[d];
      }
    }
  }

  /** Two writes for one domain: the later one wins. */
  lemma MergeOrderMatters(domain: string, x: Bundle, y: Bundle)
    requires x != y
    ensures map[domain := x] + map[domain := y] != map[domain := y] + map[domain := x]
  {
    var a, b := map[domain := x], map[domain := y];
    assert domain in a && domain in b && a[domain] != b[domain];
    MergeCommutesExactlyWhen(a, b);
  }

  lemma MergeAssociates(a: Writes, b: Writes, c: Writes)
    ensures (a + b) + c == a + (b + c)
  {}
}
