/** The policy supervisor: a profile report per domain, made one after another or by parallel workers. */
module PolicySupervisor {
  import opened Values
  import opened GraphEngine
  import opened Citations
  import opened PolicyProfiles
  import opened Text

  // ----- the timeline

  /** An event before it has a place on the timeline. */
  datatype Note = Note(kind: EventType, node: string, payload: map<string, Value>)

  function MaxSequence(events: seq<Event>): int
    requires events != []
  {
    var n := |events| - 1;
    if n == 0 then events[0].sequence
    else
      var m := MaxSequence(events[..n]);
      if events[n].sequence > m then events[n].sequence else m
  }

  function NextSequence(events: seq<Event>): int {
    if events == [] then 0 else MaxSequence(events) + 1
  }

  function AppendEvent(events: seq<Event>, note: Note): seq<Event> {
    events + [Event(NextSequence(events), note.kind, note.node, note.payload)]
  }

  ghost function AppendAll(events: seq<Event>, notes: seq<Note>): seq<Event> {
    if notes == [] then events
    else AppendEvent(AppendAll(events, notes[..|notes| - 1]), notes[|notes| - 1])
  }

  ghost function Notes(events: seq<Event>): seq<Note> {
    seq(|events|, i requires 0 <= i < |events| => NoteOf(events[i]))
  }

  function NoteOf(e: Event): Note {
    Note(e.kind, e.node, e.payload)
  }

  lemma {:induction false} AppendAllTwice(events: seq<Event>, a: seq<Note>, b: seq<Note>)
    ensures AppendAll(events, a + b) == AppendAll(AppendAll(events, a), b)
  {
    if b == [] {
      assert a + b == a;
    } else {
      assert (a + b)[..|a + b| - 1] == a + b[..|b| - 1];
      AppendAllTwice(events, a, b[..|b| - 1]);
    }
  }

  lemma AppendOne(events: seq<Event>, notes: seq<Note>, note: Note)
    ensures AppendAll(events, notes + [note]) == AppendEvent(AppendAll(events, notes), note)
  {
    assert (notes + [note])[..|notes|] == notes;
  }

  /** Renumbering forgets nothing but the numbers. */
  lemma {:induction false} AppendedNotes(events: seq<Event>, notes: seq<Note>)
    ensures Notes(AppendAll(events, notes)) == Notes(events) + notes
  {
    if notes == [] {
      assert Notes(events) + [] == Notes(events);
    } else {
      var front, last := notes[..|notes| - 1], notes[|notes| - 1];
      AppendedNotes(events, front);
      assert Notes(AppendEvent(AppendAll(events, front), last)) == Notes(AppendAll(events, front)) + [last];
      assert notes == front + [last];
    }
  }

  ghost predicate Numbered(events: seq<Event>) {
    forall i :: 0 <= i < |events| ==> events[i].sequence == i
  }

  lemma {:induction false} NextOfNumbered(events: seq<Event>)
    requires Numbered(events)
    ensures NextSequence(events) == |events|
  {
    if |events| > 1 {
      NextOfNumbered(events[..|events| - 1]);
    }
  }

  /** A timeline numbered 0, 1, 2, ... stays so. */
  lemma {:induction false} AppendKeepsNumbered(events: seq<Event>, notes: seq<Note>)
    requires Numbered(events)
    ensures Numbered(AppendAll(events, notes)) && |AppendAll(events, notes)| == |events| + |notes|
  {
    if notes != [] {
      AppendKeepsNumbered(events, notes[..|notes| - 1]);
      NextOfNumbered(AppendAll(events, notes[..|notes| - 1]));
    }
  }

  // ----- subquestions and their answers

  datatype Context = Context(threadId: string, question: string, tenantId: string, customerId: string, threshold: real)

  datatype ToolInput = ToolInput(question: string, tenantId: string, customerId: string, threadId: string)

  /** What `run_guarded_tool` returns, with the fields that are read out of its output; no latency. */
  datatype Guarded = Guarded(
    toolName: string, status: string, input: Value, output: Value,
    answer: string, confidence: real, citations: seq<Citation>, retrievalMode: string,
    guardrails: seq<Value>, events: seq<Event>)

  /** The guarded policy search, taken to be a function of its input. */
  type Tool = ToolInput -> Guarded

  datatype ToolCall = ToolCall(toolName: string, status: string, input: Value, output: Value)

  datatype SubResult = SubResult(
    dimension: string, question: string, status: string, answer: string, confidence: real,
    citations: seq<Citation>, retrievalMode: string)

  datatype Guardrail = FromTool(decision: Value)
                     | Interrupted(reason: string, missing: seq<string>, threadId: string, profile: string)

  datatype Interrupt = Interrupt(reason: string, missing: seq<string>)

  datatype Coverage = Coverage(required: seq<string>, covered: seq<string>, ratio: real)

  datatype Report = Report(
    domain: string, specialist: string, title: string, facts: Facts, coverage: Coverage, missing: seq<string>,
    interrupt: Option<Interrupt>, subresults: seq<SubResult>, citations: seq<Citation>, primaryAnswer: string)

  function Ask(tool: Tool, ctx: Context, sq: Subquestion): Guarded {
    tool(ToolInput(sq.question, ctx.tenantId, ctx.customerId, ctx.threadId))
  }

  function CallOf(g: Guarded): ToolCall {
    ToolCall(g.toolName, g.status, g.input, g.output)
  }

  function SubResultOf(sq: Subquestion, g: Guarded): SubResult {
    SubResult(sq.dimension, sq.question, g.status, g.answer, g.confidence, g.citations, g.retrievalMode)
  }

  function Wrapped(decisions: seq<Value>): seq<Guardrail> {
    seq(|decisions|, i requires 0 <= i < |decisions| => FromTool(decisions[i]))
  }

  /** Everything that asking the subquestions one after another produces. */
  datatype Answers = Answers(
    calls: seq<ToolCall>, subresults: seq<SubResult>, guardrails: seq<Guardrail>, notes: seq<Note>)

  ghost function AnswersTo(tool: Tool, ctx: Context, sqs: seq<Subquestion>): Answers {
    if sqs == [] then Answers([], [], [], [])
    else
      var sq := sqs[|sqs| - 1];
      var before, g := AnswersTo(tool, ctx, sqs[..|sqs| - 1]), Ask(tool, ctx, sq);
      Answers(before.calls + [CallOf(g)], before.subresults + [SubResultOf(sq, g)],
              before.guardrails + Wrapped(g.guardrails), before.notes + Notes(g.events))
  }

  method CopyEvents(
    events: seq<Event>, ghost start: seq<Event>, ghost notes: seq<Note>, more: seq<Event>)
    returns (events': seq<Event>)
    requires events == AppendAll(start, notes)
    ensures events' == AppendAll(start, notes + Notes(more))
  {
    events' := events;
    assert notes + Notes(more[..0]) == notes;
    for j := 0 to |more|
      invariant events' == AppendAll(start, notes + Notes(more[..j]))
    {
      AppendOne(start, notes + Notes(more[..j]), NoteOf(more[j]));
      assert notes + Notes(more[..j]) + [NoteOf(more[j])] == notes + Notes(more[..j + 1]);
      events' := AppendEvent(events', NoteOf(more[j]));
    }
    assert more[..|more|] == more;
  }

  lemma AnswersOneMore(tool: Tool, ctx: Context, sqs: seq<Subquestion>, i: nat)
    requires i < |sqs|
    ensures var before, g := AnswersTo(tool, ctx, sqs[..i]), Ask(tool, ctx, sqs[i]);
            AnswersTo(tool, ctx, sqs[..i + 1]) ==
            Answers(before.calls + [CallOf(g)], before.subresults + [SubResultOf(sqs[i], g)],
                    before.guardrails + Wrapped(g.guardrails), before.notes + Notes(g.events))
  {
    assert sqs[..i + 1][..i] == sqs[..i];
  }

  /** The loop over the subquestions. */
  method AskAll(
    tool: Tool, ctx: Context, sqs: seq<Subquestion>, startEvents: seq<Event>, startGuardrails: seq<Guardrail>)
    returns (calls: seq<ToolCall>, subresults: seq<SubResult>, guardrails: seq<Guardrail>, events: seq<Event>)
    ensures var a := AnswersTo(tool, ctx, sqs);
            calls == a.calls && subresults == a.subresults &&
            guardrails == startGuardrails + a.guardrails && events == AppendAll(startEvents, a.notes)
  {
    calls, subresults, guardrails, events := [], [], startGuardrails, startEvents;
    for i := 0 to |sqs|
      invariant var a := AnswersTo(tool, ctx, sqs[..i]);
                calls == a.calls && subresults == a.subresults &&
                guardrails == startGuardrails + a.guardrails && events == AppendAll(startEvents, a.notes)
    {
      ghost var before := AnswersTo(tool, ctx, sqs[..i]);
      AnswersOneMore(tool, ctx, sqs, i);
      var g := Ask(tool, ctx, sqs[i]);
      Regroup(startGuardrails, before.guardrails, Wrapped(g.guardrails));
      guardrails := guardrails + Wrapped(g.guardrails);
      events := CopyEvents(events, startEvents, before.notes, g.events);
      calls := calls + [CallOf(g)];
      subresults := subresults + [SubResultOf(sqs[i], g)];
    }
    assert sqs[..|sqs|] == sqs;
  }

  lemma Regroup<T>(a: seq<T>, b: seq<T>, c: seq<T>)
    ensures a + b + c == a + (b + c)
  {}

  // ----- coverage

  predicate Covers(r: SubResult, threshold: real) {
    r.dimension != PRIMARY && r.status == "completed" && r.confidence >= threshold && r.citations != []
  }

  function CoveredDimensions(subresults: seq<SubResult>, threshold: real): seq<string> {
    if subresults == [] then []
    else
      var r := subresults[|subresults| - 1];
      CoveredDimensions(subresults[..|subresults| - 1], threshold) +
        (if Covers(r, threshold) then [r.dimension] else [])
  }

  function Without(items: seq<string>, taken: seq<string>): seq<string> {
    if items == [] then []
    else
      var item := items[|items| - 1];
      Without(items[..|items| - 1], taken) + (if item in taken then [] else [item])
  }

  function Ratio(required: nat, covered: nat): real {
    if required == 0 then 1.0 else Round4(covered as real / required as real)
  }

  function CoverageOf(required: seq<string>, covered: seq<string>): Coverage {
    Coverage(required, covered, Ratio(|required|, |covered|))
  }

  function InterruptFor(reason: string, missing: seq<string>): Option<Interrupt> {
    if missing == [] then None else Some(Interrupt(reason, missing))
  }

  function Strings(items: seq<string>): Value {
    List(seq(|items|, i requires 0 <= i < |items| => Str(items[i])))
  }

  function PauseNote(node: string, reason: string, missing: seq<string>): Note {
    Note(Pause, node, map["reason" := Str(reason), "missing_dimensions" := Strings(missing)])
  }

  function FactNote(ctx: Context, p: Profile, facts: Facts, required: seq<string>): Note {
    Note(MemoryRead, p.domain + "_fact_extract",
         map["thread_id" := Str(ctx.threadId), "profile" := Str(p.domain), "fact_count" := Int(|facts|),
             "required_dimensions" := Strings(required)])
  }

  function EndNote(p: Profile, count: nat): Note {
    Note(NodeEnd, p.domain + "_execute_subquestions", map["subquestion_count" := Int(count)])
  }

  // ----- one profile

  function FirstPrimary(subresults: seq<SubResult>): string {
    if subresults == [] then ""
    else if subresults[0].dimension == PRIMARY then subresults[0].answer
    else FirstPrimary(subresults[1..])
  }

  /** The first answer that is not blank among the subquestions of the domain, else the primary one. */
  function DomainSummary(subresults: seq<SubResult>, otherwise: string): string {
    if subresults == [] then otherwise
    else if subresults[0].dimension != PRIMARY && Strip(subresults[0].answer) != "" then Strip(subresults[0].answer)
    else DomainSummary(subresults[1..], otherwise)
  }

  /** A report with the tool calls, guardrail entries and timeline notes that it adds. */
  datatype Work = Work(report: Report, calls: seq<ToolCall>, guardrails: seq<Guardrail>, notes: seq<Note>)

  ghost function CitationsOf(subresults: seq<SubResult>): seq<seq<Citation>> {
    seq(|subresults|, i requires 0 <= i < |subresults| => subresults[i].citations)
  }

  ghost function WorkOn(p: Profile, tool: Tool, ctx: Context): Work {
    var facts := p.extractFacts(ctx.question);
    var required := p.requiredDimensions(ctx.question, facts);
    var a := AnswersTo(tool, ctx, p.buildSubquestions(ctx.question, facts, required));
    var covered := CoveredDimensions(a.subresults, ctx.threshold);
    var missing := Without(required, covered);
    Work(
      Report(p.domain, p.specialist, p.title, facts, CoverageOf(required, covered), missing,
             InterruptFor(p.interruptReason, missing), a.subresults, Dedup(Flatten(CitationsOf(a.subresults))),
             DomainSummary(a.subresults, FirstPrimary(a.subresults))),
      a.calls,
      a.guardrails + InterruptGuardrail(p, ctx, missing),
      [FactNote(ctx, p, facts, required)] + a.notes + InterruptNote(p, missing) + [EndNote(p, |a.subresults|)])
  }

  function InterruptGuardrail(p: Profile, ctx: Context, missing: seq<string>): seq<Guardrail> {
    if missing == [] then [] else [Interrupted(p.interruptReason, missing, ctx.threadId, p.domain)]
  }

  function InterruptNote(p: Profile, missing: seq<string>): seq<Note> {
    if missing == [] then [] else [PauseNote(p.domain + "_completeness_validator", p.interruptReason, missing)]
  }

  method CitationLists(subresults: seq<SubResult>) returns (lists: seq<seq<Citation>>)
    ensures lists == CitationsOf(subresults)
  {
    lists := seq(|subresults|, i requires 0 <= i < |subresults| => subresults[i].citations);
  }

  /** `_build_profile_report`: whatever the timeline and the guardrail list it is given, it adds the same work. */
  method BuildProfileReport(
    p: Profile, tool: Tool, ctx: Context, startEvents: seq<Event>, startGuardrails: seq<Guardrail>)
    returns (report: Report, calls: seq<ToolCall>, guardrails: seq<Guardrail>, events: seq<Event>)
    ensures var work := WorkOn(p, tool, ctx);
            report == work.report && calls == work.calls &&
            guardrails == startGuardrails + work.guardrails && events == AppendAll(startEvents, work.notes)
  {
    var facts := p.extractFacts(ctx.question);
    var required := p.requiredDimensions(ctx.question, facts);
    var sqs := p.buildSubquestions(ctx.question, facts, required);
    var factNote := FactNote(ctx, p, facts, required);
    AppendOne(startEvents, [], factNote);
    events := AppendEvent(startEvents, factNote);
    var subresults;
    calls, subresults, guardrails, events := AskAll(tool, ctx, sqs, events, startGuardrails);
    ghost var a := AnswersTo(tool, ctx, sqs);
    ghost var notes := [factNote] + a.notes;
    assert [] + [factNote] == [factNote];
    AppendAllTwice(startEvents, [factNote], a.notes);
    var covered := CoveredDimensions(subresults, ctx.threshold);
    var missing := Without(required, covered);
    guardrails, events :=
      Pausing(p, ctx, missing, a.guardrails, notes, startGuardrails, startEvents, guardrails, events);
    AppendOne(startEvents, notes + InterruptNote(p, missing), EndNote(p, |subresults|));
    events := AppendEvent(events, EndNote(p, |subresults|));
    var lists := CitationLists(subresults);
    var citations := MergeCitations(lists);
    report := Report(p.domain, p.specialist, p.title, facts, CoverageOf(required, covered), missing,
                     InterruptFor(p.interruptReason, missing), subresults, citations,
                     DomainSummary(subresults, FirstPrimary(subresults)));
  }

  /** The branch taken when dimensions are missing. */
  method Pausing(p: Profile, ctx: Context, missing: seq<string>,
                 ghost own: seq<Guardrail>, ghost notes: seq<Note>, ghost startGuardrails: seq<Guardrail>,
                 ghost startEvents: seq<Event>,
                 guardrails: seq<Guardrail>, events: seq<Event>)
    returns (guardrails': seq<Guardrail>, events': seq<Event>)
    requires guardrails == startGuardrails + own && events == AppendAll(startEvents, notes)
    ensures guardrails' == startGuardrails + (own + InterruptGuardrail(p, ctx, missing))
    ensures events' == AppendAll(startEvents, notes + InterruptNote(p, missing))
  {
    guardrails', events' := guardrails, events;
    if missing != [] {
      guardrails' := guardrails' + [Interrupted(p.interruptReason, missing, ctx.threadId, p.domain)];
      AppendOne(startEvents, notes, PauseNote(p.domain + "_completeness_validator", p.interruptReason, missing));
      events' := AppendEvent(events', PauseNote(p.domain + "_completeness_validator", p.interruptReason, missing));
    } else {
      assert notes + [] == notes && own + [] == own;
    }
  }
}
