/** What every run of every graph satisfies, whatever its nodes do. */
module EngineRuns {
  import opened Values
  import opened GraphEngine

  // ----- a run described pointwise, without recursion

  /** The visit ended normally, did not ask for a pause and named a successor. */
  ghost predicate Continues(v: Visit) {
    v.attempt.Finished? && v.attempt.after.pausedReason == Null && v.attempt.result.next.Some?
  }

  /** Visit `i` is what the graph does at that node on that state at that step. */
  ghost predicate GenuineAt(go: Stepper, visits: seq<Visit>, step: nat, i: nat)
    requires i < |visits|
  {
    go(visits[i].node, step + i, visits[i].before) == Some(visits[i].attempt)
  }

  ghost predicate Genuine(go: Stepper, visits: seq<Visit>, step: nat) {
    forall i :: 0 <= i < |visits| ==> GenuineAt(go, visits, step, i)
  }

  /** Visit `i` takes over where the one before it left off. */
  ghost predicate LinkedAt(visits: seq<Visit>, i: nat)
    requires 0 < i < |visits|
  {
    var v := visits[i - 1];
    Continues(v) && visits[i].node == v.attempt.result.next.value && visits[i].before == v.attempt.after
  }

  ghost predicate Chained(visits: seq<Visit>) {
    forall i :: 0 < i < |visits| ==> LinkedAt(visits, i)
  }

  ghost predicate StartsAt(visits: seq<Visit>, node: Option<string>, s: GraphState) {
    visits != [] ==> Some(visits[0].node) == node && visits[0].before == s
  }

  /** The node that would run next, and the state, once these visits are over. */
  ghost predicate Arrives(
    visits: seq<Visit>, node: Option<string>, s: GraphState, next: Option<string>, state: GraphState)
  {
    if visits == [] then next == node && state == s
    else
      var last := visits[|visits| - 1];
      last.attempt.Finished? && last.attempt.after.pausedReason == Null &&
      next == last.attempt.result.next && state == last.attempt.after
  }

  ghost predicate EndsAs(go: Stepper, node: Option<string>, s: GraphState, step: nat, maxSteps: int, t: Trace) {
    match t.ending
    case NodeFailed(fault) =>
      t.visits != [] && var last := t.visits[|t.visits| - 1];
      last.attempt == Failed(fault) && t.state == last.before
    case PauseRequested(name, reason) =>
      t.visits != [] && var last := t.visits[|t.visits| - 1];
      last.attempt.Finished? && last.node == name && t.state == last.attempt.after &&
      t.state.pausedReason == reason && reason != Null
    case NoNextNode => Arrives(t.visits, node, s, None, t.state)
    case BudgetSpent(name) => Arrives(t.visits, node, s, Some(name), t.state) && step + |t.visits| >= maxSteps
    case NoSuchNode(name) =>
      Arrives(t.visits, node, s, Some(name), t.state) && step + |t.visits| < maxSteps &&
      go(name, step + |t.visits|, t.state).None?
  }

  ghost predicate IsRun(go: Stepper, node: Option<string>, s: GraphState, step: nat, maxSteps: int, t: Trace) {
    && Genuine(go, t.visits, step)
    && Chained(t.visits)
    && StartsAt(t.visits, node, s)
    && (t.visits != [] ==> step + |t.visits| <= maxSteps)
    && EndsAs(go, node, s, step, maxSteps, t)
  }

  lemma {:induction false} TraceIsARun(go: Stepper, node: Option<string>, s: GraphState, step: nat, maxSteps: int)
    ensures IsRun(go, node, s, step, maxSteps, TraceFrom(go, node, s, step, maxSteps))
    decreases if step < maxSteps then maxSteps - step else 0
  {
    var t := TraceFrom(go, node, s, step, maxSteps);
    if t.visits != [] {
      var v := t.visits[0];
      assert v.node == node.value && v.before == s && go(v.node, step, s) == Some(v.attempt);
      if v.attempt.Finished? && v.attempt.after.pausedReason == Null {
        TraceIsARun(go, v.attempt.result.next, v.attempt.after, step + 1, maxSteps);
        ConsIsRun(go, v, step, maxSteps, TraceFrom(go, v.attempt.result.next, v.attempt.after, step + 1, maxSteps));
      } else {
        assert t.visits == [v];
        assert GenuineAt(go, t.visits, step, 0);
      }
    }
  }

  lemma ConsGenuine(go: Stepper, v: Visit, rest: seq<Visit>, step: nat)
    requires go(v.node, step, v.before) == Some(v.attempt)
    ensures Genuine(go, [v] + rest, step) <==> Genuine(go, rest, step + 1)
  {
    var all := [v] + rest;
    if Genuine(go, rest, step + 1) {
      forall i | 0 <= i < |all| ensures GenuineAt(go, all, step, i) {
        assert i > 0 ==> GenuineAt(go, rest, step + 1, i - 1);
      }
    }
    if Genuine(go, all, step) {
      var next := step + 1;
      forall i | 0 <= i < |rest| ensures GenuineAt(go, rest, next, i) {
        assert GenuineAt(go, all, step, i + 1);
      }
    }
  }

  lemma ConsChained(v: Visit, rest: seq<Visit>)
    ensures Chained([v] + rest) <==>
            Chained(rest) && (rest != [] ==> Continues(v) && StartsAt(rest, v.attempt.result.next, v.attempt.after))
  {
    var all := [v] + rest;
    if Chained(all) {
      assert rest != [] ==> LinkedAt(all, 1);
      forall i | 0 < i < |rest| ensures LinkedAt(rest, i) {
        assert LinkedAt(all, i + 1);
      }
    }
    if Chained(rest) && (rest != [] ==> Continues(v) && StartsAt(rest, v.attempt.result.next, v.attempt.after)) {
      forall i | 0 < i < |all| ensures LinkedAt(all, i) {
        assert i > 1 ==> LinkedAt(rest, i - 1);
      }
    }
  }

  lemma ConsEnds(go: Stepper, v: Visit, step: nat, maxSteps: int, rest: Trace)
    requires v.attempt.Finished? && v.attempt.after.pausedReason == Null
    requires rest.visits == [] ==> !rest.ending.NodeFailed? && !rest.ending.PauseRequested?
    ensures EndsAs(go, Some(v.node), v.before, step, maxSteps, Prefixed([v], rest)) <==>
            EndsAs(go, v.attempt.result.next, v.attempt.after, step + 1, maxSteps, rest)
  {
    var all := [v] + rest.visits;
    assert rest.visits != [] ==> all[|all| - 1] == rest.visits[|rest.visits| - 1];
  }

  lemma ConsIsRun(go: Stepper, v: Visit, step: nat, maxSteps: int, rest: Trace)
    requires v.attempt.Finished? && v.attempt.after.pausedReason == Null
    requires go(v.node, step, v.before) == Some(v.attempt) && step < maxSteps
    requires IsRun(go, v.attempt.result.next, v.attempt.after, step + 1, maxSteps, rest)
    ensures IsRun(go, Some(v.node), v.before, step, maxSteps, Prefixed([v], rest))
  {
    ConsGenuine(go, v, rest.visits, step);
    ConsChained(v, rest.visits);
    ConsEnds(go, v, step, maxSteps, rest);
  }

  lemma TailIsRun(go: Stepper, v: Visit, step: nat, maxSteps: int, rest: Trace)
    requires IsRun(go, Some(v.node), v.before, step, maxSteps, Prefixed([v], rest))
    requires go(v.node, step, v.before) == Some(v.attempt)
    requires v.attempt.Finished? && v.attempt.after.pausedReason == Null
    ensures IsRun(go, v.attempt.result.next, v.attempt.after, step + 1, maxSteps, rest)
  {
    ConsGenuine(go, v, rest.visits, step);
    ConsChained(v, rest.visits);
    ConsEnds(go, v, step, maxSteps, rest);
  }

  lemma {:induction false} RunIsTheTrace(
    go: Stepper, node: Option<string>, s: GraphState, step: nat, maxSteps: int, t: Trace)
    requires IsRun(go, node, s, step, maxSteps, t)
    ensures t == TraceFrom(go, node, s, step, maxSteps)
    decreases |t.visits|
  {
    if t.visits != [] {
      var v, rest := t.visits[0], Trace(t.visits[1..], t.state, t.ending);
      assert t.visits == [v] + rest.visits;
      assert GenuineAt(go, t.visits, step, 0);
      if v.attempt.Finished? && v.attempt.after.pausedReason == Null {
        TailIsRun(go, v, step, maxSteps, rest);
        RunIsTheTrace(go, v.attempt.result.next, v.attempt.after, step + 1, maxSteps, rest);
      } else {
        ConsChained(v, rest.visits);
        assert t.visits == [v];
      }
    }
  }

  /** The engine's loop computes the one run there is: each visit is what the graph does, visits are
      chained by successor and state, and the run stops exactly where the rules say. */
  lemma RunCharacterised(g: Graph, initial: GraphState, maxSteps: int, t: Trace)
    ensures IsRun(StepperOf(g), Some(g.entry), initial, 0, maxSteps, t) <==> t == TraceOf(g, initial, maxSteps)
  {
    TraceIsARun(StepperOf(g), Some(g.entry), initial, 0, maxSteps);
    if IsRun(StepperOf(g), Some(g.entry), initial, 0, maxSteps, t) {
      RunIsTheTrace(StepperOf(g), Some(g.entry), initial, 0, maxSteps, t);
    }
  }

  // ----- bounds and the event log

  ghost function Budget(maxSteps: int): nat {
    if maxSteps > 0 then maxSteps else 0
  }

  ghost function ReasonOfKind(kind: EventType): EndReason {
    match kind
    case GraphEnd => COMPLETED
    case GraphMaxSteps => MAX_STEPS
    case Pause => PAUSED
    case _ => ERROR
  }

  lemma LogEndsWithBlock(visits: seq<Visit>)
    requires visits != []
    ensures Log(visits) == Log(visits[..|visits| - 1]) + Block(visits[|visits| - 1])
  {
    LogAppend(visits[..|visits| - 1], visits[|visits| - 1]);
    assert visits[..|visits| - 1] + [visits[|visits| - 1]] == visits;
  }

  lemma ClosingKind(t: Trace, maxSteps: int)
    requires t.ending.NodeFailed? ==> t.visits != [] && t.visits[|t.visits| - 1].attempt.Failed?
    ensures var es := Log(t.visits) + ClosingEvent(t.ending, |t.visits|, maxSteps);
            es != [] && es[|es| - 1].kind in {GraphEnd, GraphMaxSteps, Pause, NodeError} &&
            ReasonOfKind(es[|es| - 1].kind) == ReasonOf(t.ending)
  {
    if t.ending.NodeFailed? {
      LogEndsWithBlock(t.visits);
    }
  }

  /** A run stays within its budget, numbers its events 0, 1, 2, ..., and its last event tells how it ended. */
  lemma RunShape(g: Graph, initial: GraphState, maxSteps: int)
    ensures var r := RunOf(g, initial, maxSteps);
            && r.steps <= Budget(maxSteps)
            && (r.endReason == MAX_STEPS ==> r.steps == Budget(maxSteps))
            && (forall i :: 0 <= i < |r.events| ==> r.events[i].sequence == i)
            && r.events != []
            && r.endReason == ReasonOfKind(r.events[|r.events| - 1].kind)
            && r.events[|r.events| - 1].kind in {GraphEnd, GraphMaxSteps, Pause, NodeError}
            && (r.error.Some? <==> r.endReason == ERROR)
  {
    var go, t := StepperOf(g), TraceOf(g, initial, maxSteps);
    assert IsRun(go, Some(g.entry), initial, 0, maxSteps, t) by {
      TraceIsARun(go, Some(g.entry), initial, 0, maxSteps);
    }
    ReplayShape(go, g.entry, initial, maxSteps, t);
  }

  lemma ReplayShape(go: Stepper, entry: string, initial: GraphState, maxSteps: int, t: Trace)
    requires IsRun(go, Some(entry), initial, 0, maxSteps, t)
    ensures var r := Replay(t, maxSteps);
            && r.steps <= Budget(maxSteps)
            && (r.endReason == MAX_STEPS ==> r.steps == Budget(maxSteps))
            && (forall i :: 0 <= i < |r.events| ==> r.events[i].sequence == i)
            && r.events != []
            && r.endReason == ReasonOfKind(r.events[|r.events| - 1].kind)
            && r.events[|r.events| - 1].kind in {GraphEnd, GraphMaxSteps, Pause, NodeError}
            && (r.error.Some? <==> r.endReason == ERROR)
  {
    ClosingKind(t, maxSteps);
    assert |t.visits| <= Budget(maxSteps);
  }

  ghost function Count(es: seq<Event>, kind: EventType): nat {
    if es == [] then 0 else Count(es[..|es| - 1], kind) + (if es[|es| - 1].kind == kind then 1 else 0)
  }

  ghost function Emitted(visits: seq<Visit>): seq<Event> {
    if visits == [] then []
    else
      var v := visits[|visits| - 1];
      Emitted(visits[..|visits| - 1]) + (if v.attempt.Finished? then v.attempt.result.events else [])
  }

  lemma {:induction false} CountConcat(a: seq<Event>, b: seq<Event>, kind: EventType)
    ensures Count(a + b, kind) == Count(a, kind) + Count(b, kind)
  {
    if b == [] {
      assert a + b == a;
    } else {
      assert (a + b)[..|a + b| - 1] == a + b[..|b| - 1];
      CountConcat(a, b[..|b| - 1], kind);
    }
  }

  lemma {:induction false} CountSameKinds(a: seq<Event>, b: seq<Event>, kind: EventType)
    requires |a| == |b| && forall i :: 0 <= i < |a| ==> a[i].kind == b[i].kind
    ensures Count(a, kind) == Count(b, kind)
  {
    if a != [] {
      CountSameKinds(a[..|a| - 1], b[..|b| - 1], kind);
    }
  }

  lemma CountOne(e: Event, kind: EventType)
    ensures Count([e], kind) == if e.kind == kind then 1 else 0
  {
    assert [e][..0] == [];
  }

  lemma CountBlock(v: Visit)
    ensures Count(Block(v), NodeStart) ==
            1 + if v.attempt.Finished? then Count(v.attempt.result.events, NodeStart) else 0
  {
    CountOne(StartOf(v.node), NodeStart);
    match v.attempt
    case Failed(fault) =>
      CountOne(ErrorOf(v.node, fault), NodeStart);
      CountConcat([StartOf(v.node)], [ErrorOf(v.node, fault)], NodeStart);
      assert Block(v) == [StartOf(v.node)] + [ErrorOf(v.node, fault)];
    case Finished(result, _) =>
      var own := NamedAll(result.events, v.node);
      CountSameKinds(own, result.events, NodeStart);
      CountOne(EndOf(v.node, result.next), NodeStart);
      CountConcat([StartOf(v.node)], own, NodeStart);
      CountConcat([StartOf(v.node)] + own, [EndOf(v.node, result.next)], NodeStart);
  }

  lemma {:induction false} CountLog(visits: seq<Visit>)
    ensures Count(Log(visits), NodeStart) == |visits| + Count(Emitted(visits), NodeStart)
  {
    if visits == [] {
      assert Log([]) == [];
    } else {
      var front, v := visits[..|visits| - 1], visits[|visits| - 1];
      CountLog(front);
      LogEndsWithBlock(visits);
      CountBlock(v);
      CountConcat(Log(front), Block(v), NodeStart);
      CountConcat(Emitted(front), if v.attempt.Finished? then v.attempt.result.events else [], NodeStart);
    }
  }

  /** Beyond the NODE_START events that nodes emit themselves, the log holds exactly one per step. */
  lemma StartsCountSteps(g: Graph, initial: GraphState, maxSteps: int)
    ensures var r := RunOf(g, initial, maxSteps);
            Count(r.events, NodeStart) == r.steps + Count(Emitted(TraceOf(g, initial, maxSteps).visits), NodeStart)
  {
    var t := TraceOf(g, initial, maxSteps);
    var closing := ClosingEvent(t.ending, |t.visits|, maxSteps);
    CountSameKinds(Number(Log(t.visits) + closing), Log(t.visits) + closing, NodeStart);
    CountLog(t.visits);
    CountConcat(Log(t.visits), closing, NodeStart);
    if closing != [] {
      assert closing == [closing[0]];
      CountOne(closing[0], NodeStart);
    }
  }

  /** Where the block of visit `i` begins in the log. */
  ghost function Offset(visits: seq<Visit>, i: nat): nat
    requires i <= |visits|
  {
    |Log(visits[..i])|
  }

  /** The stretch from `from` to `to` is the block of the visit, renumbered. */
  ghost predicate OwnsStretch(events: seq<Event>, from: nat, to: nat, v: Visit) {
    && from + 2 <= to <= |events|
    && events[from].kind == NodeStart && events[from].node == v.node
    && events[to - 1].kind == (if v.attempt.Finished? then NodeEnd else NodeError)
    && events[to - 1].node == v.node
    && (v.attempt.Finished? ==>
          Number(events[from + 1..to - 1]) == Number(NamedAll(v.attempt.result.events, v.node)))
  }

  /** The log is the blocks of the visits one after another: visit `i` owns one contiguous stretch that
      opens with its START, closes with its END or ERROR and holds what it emitted in between. */
  lemma {:induction false} BlockInLog(g: Graph, initial: GraphState, maxSteps: int, i: nat)
    requires i < |TraceOf(g, initial, maxSteps).visits|
    ensures var t := TraceOf(g, initial, maxSteps);
            OwnsStretch(RunOf(g, initial, maxSteps).events, Offset(t.visits, i), Offset(t.visits, i + 1), t.visits[i])
  {
    var t := TraceOf(g, initial, maxSteps);
    var rest := LogSplit(t.visits, i);
    var closing := ClosingEvent(t.ending, |t.visits|, maxSteps);
    StretchOf(Log(t.visits[..i]), t.visits[i], rest, closing);
    assert Log(t.visits[..i]) + Block(t.visits[i]) + rest + closing == Log(t.visits) + closing;
  }

  /** The stretch holds the events of the block, with the numbers of their places. */
  ghost predicate Holds(events: seq<Event>, from: nat, block: seq<Event>) {
    from + |block| <= |events| &&
    forall k :: 0 <= k < |block| ==> events[from + k] == block[k].(sequence := from + k)
  }

  lemma NumberedBlock(before: seq<Event>, block: seq<Event>, after: seq<Event>)
    ensures Holds(Number(before + block + after), |before|, block)
  {
    var raw := before + block + after;
    forall k | 0 <= k < |block| ensures raw[|before| + k] == block[k] {}
  }

  lemma BlockEnds(v: Visit)
    ensures var block := Block(v); var last := block[|block| - 1];
            && |block| >= 2 && block[0].kind == NodeStart && block[0].node == v.node
            && last.kind == (if v.attempt.Finished? then NodeEnd else NodeError) && last.node == v.node
            && (v.attempt.Finished? ==> block[1..|block| - 1] == NamedAll(v.attempt.result.events, v.node))
  {}

  lemma OwnPart(events: seq<Event>, from: nat, block: seq<Event>)
    requires Holds(events, from, block) && |block| >= 2
    ensures Number(events[from + 1..from + |block| - 1]) == Number(block[1..|block| - 1])
  {
    var part, own := events[from + 1..from + |block| - 1], block[1..|block| - 1];
    forall k | 0 <= k < |own| ensures Number(part)[k] == Number(own)[k] {
      assert part[k] == events[from + (k + 1)] && own[k] == block[k + 1];
    }
  }

  lemma StretchOf(before: seq<Event>, v: Visit, rest: seq<Event>, closing: seq<Event>)
    ensures OwnsStretch(Number(before + Block(v) + rest + closing), |before|, |before + Block(v)|, v)
  {
    assert before + Block(v) + rest + closing == before + Block(v) + (rest + closing);
    NumberedBlock(before, Block(v), rest + closing);
    BlockEnds(v);
    OwnPart(Number(before + Block(v) + (rest + closing)), |before|, Block(v));
    StretchFrom(Number(before + Block(v) + (rest + closing)), |before|, Block(v), v);
  }

  lemma StretchFrom(events: seq<Event>, from: nat, block: seq<Event>, v: Visit)
    requires Holds(events, from, block) && |block| >= 2
    requires block[0].kind == NodeStart && block[0].node == v.node
    requires block[|block| - 1].kind == (if v.attempt.Finished? then NodeEnd else NodeError)
    requires block[|block| - 1].node == v.node
    requires v.attempt.Finished? ==>
               Number(events[from + 1..from + |block| - 1]) == Number(NamedAll(v.attempt.result.events, v.node))
    ensures OwnsStretch(events, from, from + |block|, v)
  {
    assert events[from + 0] == block[0].(sequence := from);
    assert events[from + (|block| - 1)] == block[|block| - 1].(sequence := from + (|block| - 1));
  }

  lemma LogSplit(visits: seq<Visit>, i: nat) returns (rest: seq<Event>)
    requires i < |visits|
    ensures Log(visits) == Log(visits[..i]) + Block(visits[i]) + rest
    ensures Log(visits[..i + 1]) == Log(visits[..i]) + Block(visits[i])
  {
    LogAppend(visits[..i], visits[i]);
    assert visits[..i] + [visits[i]] == visits[..i + 1];
    FlattenAppend(Blocks(visits[..i + 1]), Blocks(visits[i + 1..]));
    assert Blocks(visits[..i + 1]) + Blocks(visits[i + 1..]) == Blocks(visits);
    rest := Log(visits[i + 1..]);
  }

  // ----- the state

  /** The deltas of the nodes that succeeded, in order, each read as a lookup table. */
  ghost function Deltas(visits: seq<Visit>): seq<map<Key, Value>> {
    if visits == [] then []
    else
      var v := visits[0];
      (if v.attempt.Finished? then [AsMap(v.attempt.result.delta)] else []) + Deltas(visits[1..])
  }

  ghost function Fold(s: GraphState, deltas: seq<map<Key, Value>>): GraphState
    decreases |deltas|
  {
    if deltas == [] then s else Fold(Merge(s, deltas[0]), deltas[1..])
  }

  ghost function Contributions(deltas: seq<map<Key, Value>>, key: Key): seq<Value> {
    if deltas == [] then [] else Contribution(deltas[0], key) + Contributions(deltas[1..], key)
  }

  /** The steps of this graph are steps of nodes whose deltas were applied. */
  ghost predicate AppliesDeltas(go: Stepper) {
    forall node, step, s {:trigger go(node, step, s)} ::
      var made := go(node, step, s);
      made.Some? && made.value.Finished? ==> ApplyDelta(s, made.value.result.delta) == Applied(made.value.after)
  }

  lemma {:induction false} StateIsFold(go: Stepper, node: Option<string>, s: GraphState, step: nat, maxSteps: int)
    requires AppliesDeltas(go)
    ensures var t := TraceFrom(go, node, s, step, maxSteps);
            t.state == Fold(s, Deltas(t.visits))
    decreases if step < maxSteps then maxSteps - step else 0
  {
    var t := TraceFrom(go, node, s, step, maxSteps);
    if t.visits != [] {
      var v := t.visits[0];
      assert go(v.node, step, s) == Some(v.attempt);
      if Continues(v) || (v.attempt.Finished? && v.attempt.after.pausedReason == Null) {
        StateIsFold(go, v.attempt.result.next, v.attempt.after, step + 1, maxSteps);
        var rest := TraceFrom(go, v.attempt.result.next, v.attempt.after, step + 1, maxSteps);
        assert t.visits[1..] == rest.visits;
        assert Deltas(t.visits)[1..] == Deltas(rest.visits);
      } else {
        assert Deltas(t.visits[1..]) == [];
      }
    }
  }

  /** The three append-only fields of a state. */
  ghost function History(s: GraphState, key: Key): seq<Value> {
    match key
    case Messages => s.messages
    case ToolCalls => s.toolCalls
    case _ => s.memory
  }

  lemma {:induction false} FoldGrows(s: GraphState, deltas: seq<map<Key, Value>>, key: Key)
    requires key in {Messages, ToolCalls, Memory}
    ensures History(Fold(s, deltas), key) == History(s, key) + Contributions(deltas, key)
    decreases |deltas|
  {
    if deltas != [] {
      var first, rest := Contribution(deltas[0], key), Contributions(deltas[1..], key);
      FoldGrows(Merge(s, deltas[0]), deltas[1..], key);
      assert History(s, key) + first + rest == History(s, key) + (first + rest);
    }
  }

  /** The final state is the initial one with the deltas of the successful nodes applied in order and
      nothing else: a node that raised or returned a bad delta left no trace. */
  lemma {:induction false} FinalState(g: Graph, initial: GraphState, maxSteps: int)
    ensures var t := TraceOf(g, initial, maxSteps);
            && RunOf(g, initial, maxSteps).state == Fold(initial, Deltas(t.visits))
            && |Deltas(t.visits)| == |t.visits| - (if t.ending.NodeFailed? then 1 else 0)
  {
    assert AppliesDeltas(StepperOf(g));
    StateIsFold(StepperOf(g), Some(g.entry), initial, 0, maxSteps);
    DeltaPerVisit(StepperOf(g), g.entry, initial, maxSteps);
  }

  /** Messages, tool calls and memory only grow, by what the successful nodes contributed, in order. */
  lemma HistoriesOnlyGrow(g: Graph, initial: GraphState, maxSteps: int, key: Key)
    requires key in {Messages, ToolCalls, Memory}
    ensures History(RunOf(g, initial, maxSteps).state, key) ==
            History(initial, key) + Contributions(Deltas(TraceOf(g, initial, maxSteps).visits), key)
  {
    FinalState(g, initial, maxSteps);
    FoldGrows(initial, Deltas(TraceOf(g, initial, maxSteps).visits), key);
  }

  lemma DeltaPerVisit(go: Stepper, entry: string, initial: GraphState, maxSteps: int)
    ensures var t := TraceFrom(go, Some(entry), initial, 0, maxSteps);
            |Deltas(t.visits)| == |t.visits| - (if t.ending.NodeFailed? then 1 else 0)
  {
    TraceIsARun(go, Some(entry), initial, 0, maxSteps);
    DeltasOfRun(go, entry, initial, maxSteps, TraceFrom(go, Some(entry), initial, 0, maxSteps));
  }

  lemma DeltasOfRun(go: Stepper, entry: string, initial: GraphState, maxSteps: int, t: Trace)
    requires IsRun(go, Some(entry), initial, 0, maxSteps, t)
    ensures |Deltas(t.visits)| == |t.visits| - (if t.ending.NodeFailed? then 1 else 0)
  {
    FinishedBeforeLast(t.visits);
    CountDeltas(t.visits);
  }

  lemma FinishedBeforeLast(visits: seq<Visit>)
    requires Chained(visits)
    ensures forall i :: 0 <= i < |visits| - 1 ==> visits[i].attempt.Finished?
  {
    forall i | 0 <= i < |visits| - 1 ensures visits[i].attempt.Finished? {
      assert LinkedAt(visits, i + 1);
    }
  }

  lemma {:induction false} CountDeltas(visits: seq<Visit>)
    requires forall i :: 0 <= i < |visits| - 1 ==> visits[i].attempt.Finished?
    ensures |Deltas(visits)| == |visits| - (if visits != [] && visits[|visits| - 1].attempt.Failed? then 1 else 0)
  {
    if visits != [] {
      CountDeltas(visits[1..]);
    }
  }

  // ----- end reasons

  /** The end reasons of a run, read off its last visit: a paused reason decides before the successor does. */
  ghost predicate PauseDecidesFirst(t: Trace) {
    var n := |t.visits|;
    && (ReasonOf(t.ending) == PAUSED <==>
          n > 0 && t.visits[n - 1].attempt.Finished? && t.visits[n - 1].attempt.after.pausedReason != Null)
    && (ReasonOf(t.ending) == COMPLETED <==>
          n > 0 && t.visits[n - 1].attempt.Finished? && t.visits[n - 1].attempt.after.pausedReason == Null &&
          t.visits[n - 1].attempt.result.next.None?)
  }

  lemma ConcludedReasons(t: Trace, initial: GraphState, maxSteps: int)
    requires Concluded(t, initial, maxSteps)
    ensures PauseDecidesFirst(t)
  {}

  /** A pause request wins over completion: the engine looks at `paused_reason` before `next_node`. */
  lemma {:induction false} PauseBeatsCompletion(g: Graph, initial: GraphState, maxSteps: int)
    ensures PauseDecidesFirst(TraceOf(g, initial, maxSteps))
    ensures RunOf(g, initial, maxSteps).endReason == ReasonOf(TraceOf(g, initial, maxSteps).ending)
  {
    LastVisit(StepperOf(g), g.entry, initial, maxSteps);
    ConcludedReasons(TraceOf(g, initial, maxSteps), initial, maxSteps);
  }

  const HOLD := "hold"

  /** One node that asks for a review and names no successor. */
  function HoldingGraph(): Graph {
    Graph(map[HOLD := (step: nat, s: GraphState) =>
                        Returned(NodeResult(None, [(PausedReason, Str("human review"))], []))], HOLD)
  }

  lemma HoldingDelta(s: GraphState)
    ensures ApplyDelta(s, [(PausedReason, Str("human review"))]).Applied?
    ensures ApplyDelta(s, [(PausedReason, Str("human review"))]).state.pausedReason == Str("human review")
  {
    var d: Delta := [(PausedReason, Str("human review"))];
    assert d[0].0 in AsMap(d) && AsMap(d)[d[0].0] == d[0].1;
    assert WellFormed(d);
  }

  /** Its run names no successor, which is documented as COMPLETED first of all, and is PAUSED. */
  lemma HoldingRunIsPaused(initial: GraphState, maxSteps: int)
    requires maxSteps > 0
    ensures var t := TraceOf(HoldingGraph(), initial, maxSteps);
            |t.visits| == 1 && t.visits[0].attempt.Finished? && t.visits[0].attempt.result.next.None?
    ensures RunOf(HoldingGraph(), initial, maxSteps).endReason == PAUSED
  {
    HoldingDelta(initial);
    assert StepperOf(HoldingGraph())(HOLD, 0, initial).Some?;
  }

  lemma {:induction false} LargerBudget(
    go: Stepper, node: Option<string>, s: GraphState, step: nat, small: int, large: int)
    requires small <= large
    ensures var a, b := TraceFrom(go, node, s, step, small), TraceFrom(go, node, s, step, large);
            a.visits <= b.visits && (!a.ending.BudgetSpent? ==> a == b)
    decreases if step < large then large - step else 0
  {
    if step < small && node.Some? && go(node.value, step, s).Some? {
      var attempt := go(node.value, step, s).value;
      if attempt.Finished? && attempt.after.pausedReason == Null {
        LargerBudget(go, attempt.result.next, attempt.after, step + 1, small, large);
      }
    }
  }

  /** Raising `max_steps` only ever lets a run go on: it changes nothing that already happened, and
      nothing at all unless the smaller budget was what stopped the run. */
  lemma {:induction false} LargerBudgetOnlyExtends(g: Graph, initial: GraphState, small: int, large: int)
    requires small <= large
    ensures TraceOf(g, initial, small).visits <= TraceOf(g, initial, large).visits
    ensures RunOf(g, initial, small).endReason != MAX_STEPS ==> RunOf(g, initial, large) == RunOf(g, initial, small)
  {
    LargerBudget(StepperOf(g), Some(g.entry), initial, 0, small, large);
  }

  // ----- invariants

  /** What holds on entry to a node still holds on entry to its successor. */
  ghost predicate Inductive(go: Stepper, inv: (string, nat, GraphState) -> bool) {
    forall node, j: nat, s {:trigger inv(node, j, s), go(node, j, s)} ::
      inv(node, j, s) && go(node, j, s).Some? && Continues(Visit(node, s, go(node, j, s).value)) ==>
        var attempt := go(node, j, s).value; inv(attempt.result.next.value, j + 1, attempt.after)
  }

  /** An inductive property that holds at the entry node holds at every visit of every run. */
  lemma {:induction false} InvariantAtEveryVisit(
    go: Stepper, entry: string, initial: GraphState, maxSteps: int, inv: (string, nat, GraphState) -> bool, j: nat)
    requires Inductive(go, inv) && inv(entry, 0, initial)
    requires j < |TraceFrom(go, Some(entry), initial, 0, maxSteps).visits|
    ensures var v := TraceFrom(go, Some(entry), initial, 0, maxSteps).visits[j];
            inv(v.node, j, v.before) && go(v.node, j, v.before) == Some(v.attempt)
  {
    TraceIsARun(go, Some(entry), initial, 0, maxSteps);
    var visits := TraceFrom(go, Some(entry), initial, 0, maxSteps).visits;
    assert GenuineAt(go, visits, 0, j);
    if j > 0 {
      InvariantAtEveryVisit(go, entry, initial, maxSteps, inv, j - 1);
      assert LinkedAt(visits, j);
    }
  }

  // ----- single facts about a trace, for arguments about particular graphs

  lemma LinkedVisits(go: Stepper, entry: string, initial: GraphState, maxSteps: int, j: nat)
    requires 0 < j < |TraceFrom(go, Some(entry), initial, 0, maxSteps).visits|
    ensures LinkedAt(TraceFrom(go, Some(entry), initial, 0, maxSteps).visits, j)
  {
    TraceIsARun(go, Some(entry), initial, 0, maxSteps);
  }

  lemma GenuineVisit(go: Stepper, entry: string, initial: GraphState, maxSteps: int, j: nat)
    requires j < |TraceFrom(go, Some(entry), initial, 0, maxSteps).visits|
    ensures var v := TraceFrom(go, Some(entry), initial, 0, maxSteps).visits[j];
            go(v.node, j, v.before) == Some(v.attempt)
  {
    TraceIsARun(go, Some(entry), initial, 0, maxSteps);
    assert GenuineAt(go, TraceFrom(go, Some(entry), initial, 0, maxSteps).visits, 0, j);
  }

  ghost function StateAfter(v: Visit): GraphState {
    if v.attempt.Finished? then v.attempt.after else v.before
  }

  /** The last visit settles the final state and, unless it names a successor, the ending. */
  ghost predicate Concluded(t: Trace, initial: GraphState, maxSteps: int) {
    if t.visits == [] then
      t.state == initial && (t.ending.BudgetSpent? || t.ending.NoSuchNode?) && (t.ending.BudgetSpent? ==> maxSteps <= 0)
    else
      var last := t.visits[|t.visits| - 1];
      && t.state == StateAfter(last)
      && |t.visits| <= maxSteps
      && (t.ending.NodeFailed? <==> last.attempt.Failed?)
      && (t.ending.PauseRequested? <==> last.attempt.Finished? && last.attempt.after.pausedReason != Null)
      && (t.ending.NoNextNode? <==>
            last.attempt.Finished? && last.attempt.after.pausedReason == Null && last.attempt.result.next.None?)
      && (Continues(last) && t.ending.BudgetSpent? ==> |t.visits| == maxSteps)
  }

  lemma LastVisit(go: Stepper, entry: string, initial: GraphState, maxSteps: int)
    ensures Concluded(TraceFrom(go, Some(entry), initial, 0, maxSteps), initial, maxSteps)
  {
    TraceIsARun(go, Some(entry), initial, 0, maxSteps);
  }

  /** A run of a graph that has every node it names never ends for want of one. */
  lemma NodeIsThere(go: Stepper, entry: string, initial: GraphState, maxSteps: int)
    requires go(entry, 0, initial).Some?
    requires var t := TraceFrom(go, Some(entry), initial, 0, maxSteps);
             t.visits != [] && Continues(t.visits[|t.visits| - 1]) ==>
               go(t.visits[|t.visits| - 1].attempt.result.next.value, |t.visits|,
                  t.visits[|t.visits| - 1].attempt.after).Some?
    ensures !TraceFrom(go, Some(entry), initial, 0, maxSteps).ending.NoSuchNode?
  {
    TraceIsARun(go, Some(entry), initial, 0, maxSteps);
  }

  /** A failed visit is the last one; after any other, the next visit is to the node it named. */
  lemma Handover(go: Stepper, entry: string, initial: GraphState, maxSteps: int, j: nat)
    requires j < |TraceFrom(go, Some(entry), initial, 0, maxSteps).visits|
    ensures var t := TraceFrom(go, Some(entry), initial, 0, maxSteps);
            if t.visits[j].attempt.Failed? then j == |t.visits| - 1 && t.ending.NodeFailed?
            else j + 1 < |t.visits| ==>
                   Some(t.visits[j + 1].node) == t.visits[j].attempt.result.next &&
                   t.visits[j + 1].before == t.visits[j].attempt.after
  {
    LastVisit(go, entry, initial, maxSteps);
    if j + 1 < |TraceFrom(go, Some(entry), initial, 0, maxSteps).visits| {
      LinkedVisits(go, entry, initial, maxSteps, j + 1);
    }
  }

  /** No successful visit emitted an event of this kind. */
  ghost predicate NeverEmitted(visits: seq<Visit>, kind: EventType) {
    forall i :: 0 <= i < |visits| && visits[i].attempt.Finished? ==>
      forall e :: e in visits[i].attempt.result.events ==> e.kind != kind
  }

  lemma {:induction false} KindNotLogged(visits: seq<Visit>, kind: EventType)
    requires kind !in {NodeStart, NodeEnd, NodeError} && NeverEmitted(visits, kind)
    ensures forall e :: e in Log(visits) ==> e.kind != kind
  {
    if visits != [] {
      LogEndsWithBlock(visits);
      KindNotLogged(visits[..|visits| - 1], kind);
      KindNotInBlock(visits[|visits| - 1], kind);
    }
  }

  lemma KindNotInBlock(v: Visit, kind: EventType)
    requires kind !in {NodeStart, NodeEnd, NodeError}
    requires v.attempt.Finished? ==> forall e :: e in v.attempt.result.events ==> e.kind != kind
    ensures forall e :: e in Block(v) ==> e.kind != kind
  {
    if v.attempt.Finished? {
      var own := NamedAll(v.attempt.result.events, v.node);
      forall e | e in own ensures e.kind != kind {
        var i :| 0 <= i < |own| && own[i] == e;
        assert v.attempt.result.events[i] in v.attempt.result.events;
      }
    }
  }

  /** An event kind that is neither the engine's own nor emitted by a node does not occur in the log. */
  lemma {:induction false} KindNotInRun(g: Graph, initial: GraphState, maxSteps: int, kind: EventType)
    requires kind !in {NodeStart, NodeEnd, NodeError, GraphEnd, GraphMaxSteps, Pause}
    requires NeverEmitted(TraceOf(g, initial, maxSteps).visits, kind)
    ensures forall i :: 0 <= i < |RunOf(g, initial, maxSteps).events| ==>
            RunOf(g, initial, maxSteps).events[i].kind != kind
  {
    var t := TraceOf(g, initial, maxSteps);
    KindNotLogged(t.visits, kind);
    var raw := Log(t.visits) + ClosingEvent(t.ending, |t.visits|, maxSteps);
    forall i | 0 <= i < |raw| ensures raw[i].kind != kind {
      assert i < |Log(t.visits)| ==> raw[i] in Log(t.visits);
    }
  }
}
