/** The agent graph engine: a step-bounded state machine over arbitrary nodes. */
module GraphEngine {
  import opened Values

  datatype EventType =
    | NodeStart | NodeEnd | NodeError | ToolCallStart | ToolCallEnd | LlmCall | MemoryWrite
    | MemoryRead | RouteDecision | Pause | Resume | GraphEnd | GraphMaxSteps

  /** A timeline event; its timestamp is not modelled. */
  datatype Event = Event(sequence: int, kind: EventType, node: string, payload: map<string, Value>)

  datatype GraphState = GraphState(
    tenantId: Value,
    userId: Value,
    requestId: Value,
    messages: seq<Value>,
    scratchpad: map<string, Value>,
    toolCalls: seq<Value>,
    memory: seq<Value>,
    pausedReason: Value)

  // ----- state deltas

  datatype Key = TenantId | UserId | RequestId | PausedReason | Scratchpad | Messages | ToolCalls | Memory
               | Unknown(name: string)

  /** The items of a Python dict in insertion order: no key occurs twice. */
  type Delta = d: seq<(Key, Value)> | DistinctKeys(d) witness []

  ghost predicate DistinctKeys(d: seq<(Key, Value)>) {
    forall i, j :: 0 <= i < j < |d| ==> d[i].0 != d[j].0
  }

  datatype Fault = Fault(message: string, exceptionType: string)

  datatype Applied = Applied(state: GraphState) | Rejected(fault: Fault)

  predicate Accepted(key: Key, value: Value) {
    match key
    case Scratchpad => value.Dict?
    case Messages | ToolCalls | Memory => value.List?
    case Unknown(_) => false
    case _ => true
  }

  function FaultOf(key: Key): Fault {
    match key
    case Unknown(name) => Fault("unknown state_delta key " + name, "KeyError")
    case Scratchpad => Fault("scratchpad delta must be a dict", "TypeError")
    case _ => Fault("delta must be a list", "TypeError")
  }

  ghost predicate WellFormed(d: Delta) {
    forall i :: 0 <= i < |d| ==> Accepted(d[i].0, d[i].1)
  }

  /** The first entry that cannot be applied. */
  ghost function FirstBad(d: Delta): (i: nat)
    requires !WellFormed(d)
    ensures i < |d| && !Accepted(d[i].0, d[i].1)
    ensures forall j :: 0 <= j < i ==> Accepted(d[j].0, d[j].1)
  {
    if Accepted(d[0].0, d[0].1) then
      var rest: Delta := d[1..];
      assert !WellFormed(rest) by {
        var k :| 0 <= k < |d| && !Accepted(d[k].0, d[k].1);
        assert rest[k - 1] == d[k];
      }
      var i := FirstBad(rest);
      assert d[1 + i] == rest[i];
      assert forall j :: 0 < j < 1 + i ==> d[j] == rest[j - 1];
      1 + i
    else 0
  }

  /** The table holds exactly the entries of the list. */
  ghost predicate Holds(m: map<Key, Value>, d: seq<(Key, Value)>) {
    && (forall i :: 0 <= i < |d| ==> d[i].0 in m && m[d[i].0] == d[i].1)
    && (forall k :: k in m ==> exists i :: 0 <= i < |d| && d[i] == (k, m[k]))
  }

  lemma HoldsOneMore(m: map<Key, Value>, front: seq<(Key, Value)>, last: (Key, Value))
    requires Holds(m, front) && forall i :: 0 <= i < |front| ==> front[i].0 != last.0
    ensures Holds(m[last.0 := last.1], front + [last])
  {
    var d, m' := front + [last], m[last.0 := last.1];
    forall k | k in m' ensures exists i :: 0 <= i < |d| && d[i] == (k, m'[k]) {
      if k == last.0 {
        assert d[|front|] == (k, m'[k]);
      } else {
        var i :| 0 <= i < |front| && front[i] == (k, m[k]);
        assert d[i] == (k, m'[k]);
      }
    }
  }

  /** A delta read as a lookup table, which forgets the order of its keys. */
  ghost function AsMap(d: Delta): (m: map<Key, Value>)
    ensures Holds(m, d)
  {
    if d == [] then map[]
    else
      var n := |d| - 1;
      var front: Delta := d[..n];
      HoldsOneMore(AsMap(front), front, d[n]);
      assert front + [d[n]] == d;
      AsMap(front)[d[n].0 := d[n].1]
  }

  ghost function Pick(m: map<Key, Value>, key: Key, otherwise: Value): Value {
    if key in m then m[key] else otherwise
  }

  ghost function Contribution(m: map<Key, Value>, key: Key): seq<Value> {
    if key in m && m[key].List? then m[key].items else []
  }

  ghost function Overlay(m: map<Key, Value>): map<string, Value> {
    if Scratchpad in m && m[Scratchpad].Dict? then m[Scratchpad].entries else map[]
  }

  /** Field by field, without any order among the keys: scalars are overwritten, lists grow at the
      end and the scratchpad takes the new entries on top of the old ones. */
  ghost function Merge(s: GraphState, m: map<Key, Value>): GraphState {
    GraphState(
      Pick(m, TenantId, s.tenantId),
      Pick(m, UserId, s.userId),
      Pick(m, RequestId, s.requestId),
      s.messages + Contribution(m, Messages),
      s.scratchpad + Overlay(m),
      s.toolCalls + Contribution(m, ToolCalls),
      s.memory + Contribution(m, Memory),
      Pick(m, PausedReason, s.pausedReason))
  }

  /** What applying a delta means: all of it, or a fault and none of it. */
  ghost function ApplyDelta(s: GraphState, d: Delta): Applied {
    if WellFormed(d) then Applied(Merge(s, AsMap(d)))
    else Rejected(FaultOf(d[FirstBad(d)].0))
  }

  lemma MergeOneMore(s: GraphState, m: map<Key, Value>, key: Key, value: Value)
    requires key !in m && Accepted(key, value)
    ensures Merge(s, m[key := value]) == Assign(Merge(s, m), key, value)
  {
    var m' := m[key := value];
    assert Merge(s, m').messages == Assign(Merge(s, m), key, value).messages;
    assert Merge(s, m').scratchpad == Assign(Merge(s, m), key, value).scratchpad;
    assert Merge(s, m').toolCalls == Assign(Merge(s, m), key, value).toolCalls;
    assert Merge(s, m').memory == Assign(Merge(s, m), key, value).memory;
  }

  function Assign(s: GraphState, key: Key, value: Value): GraphState
    requires Accepted(key, value)
  {
    match key
    case TenantId => s.(tenantId := value)
    case UserId => s.(userId := value)
    case RequestId => s.(requestId := value)
    case PausedReason => s.(pausedReason := value)
    case Scratchpad => s.(scratchpad := s.scratchpad + value.entries)
    case Messages => s.(messages := s.messages + value.items)
    case ToolCalls => s.(toolCalls := s.toolCalls + value.items)
    case Memory => s.(memory := s.memory + value.items)
  }

  lemma MergeNothing(s: GraphState)
    ensures Merge(s, AsMap([])) == s
  {
    assert s.messages + [] == s.messages && s.toolCalls + [] == s.toolCalls && s.memory + [] == s.memory;
  }

  lemma AsMapAppend(front: Delta, key: Key, value: Value)
    requires key !in AsMap(front)
    ensures DistinctKeys(front + [(key, value)])
    ensures AsMap(front + [(key, value)]) == AsMap(front)[key := value]
  {
    assert forall i :: 0 <= i < |front| ==> front[i].0 != key;
    assert (front + [(key, value)])[..|front|] == front;
  }

  lemma Absent(d: Delta, key: Key)
    requires forall j :: 0 <= j < |d| ==> d[j].0 != key
    ensures key !in AsMap(d)
  {}

  lemma AsMapUnfolds(d: Delta)
    requires d != []
    ensures AsMap(d) == AsMap(d[..|d| - 1])[d[|d| - 1].0 := d[|d| - 1].1]
  {}

  lemma AsMapAt(d: Delta, i: nat)
    requires i < |d| && DistinctKeys(d[..i]) && DistinctKeys(d[..i + 1])
    ensures d[i].0 !in AsMap(d[..i])
    ensures AsMap(d[..i + 1]) == AsMap(d[..i])[d[i].0 := d[i].1]
  {
    var front: Delta, more: Delta := d[..i], d[..i + 1];
    assert more[..|more| - 1] == front;
    AsMapUnfolds(more);
    Absent(front, d[i].0);
  }

  lemma MergeNext(s: GraphState, d: Delta, i: nat)
    requires i < |d| && Accepted(d[i].0, d[i].1)
    requires DistinctKeys(d[..i]) && DistinctKeys(d[..i + 1])
    ensures Merge(s, AsMap(d[..i + 1])) == Assign(Merge(s, AsMap(d[..i])), d[i].0, d[i].1)
  {
    AsMapAt(d, i);
    MergeOneMore(s, AsMap(d[..i]), d[i].0, d[i].1);
  }

  lemma FirstBadIs(d: Delta, i: nat)
    requires i < |d| && !Accepted(d[i].0, d[i].1)
    requires forall j :: 0 <= j < i ==> Accepted(d[j].0, d[j].1)
    ensures !WellFormed(d) && FirstBad(d) == i
  {}

  /** One `setattr` / merge / `extend` of the loop body. */
  method AssignEntry(ghost s: GraphState, state: GraphState, d: Delta, i: nat) returns (state': GraphState)
    requires i < |d| && Accepted(d[i].0, d[i].1)
    requires DistinctKeys(d[..i]) && state == Merge(s, AsMap(d[..i]))
    ensures DistinctKeys(d[..i + 1]) && state' == Merge(s, AsMap(d[..i + 1]))
  {
    MergeNext(s, d, i);
    state' := Assign(state, d[i].0, d[i].1);
  }

  /** The engine's loop: a copy is changed entry by entry and dropped at the first fault. */
  method ApplyDeltaInOrder(s: GraphState, d: Delta) returns (r: Applied)
    ensures r == ApplyDelta(s, d)
  {
    var state := s;
    MergeNothing(s);
    for i := 0 to |d|
      invariant forall j :: 0 <= j < i ==> Accepted(d[j].0, d[j].1)
      invariant DistinctKeys(d[..i])
      invariant state == Merge(s, AsMap(d[..i]))
    {
      if !Accepted(d[i].0, d[i].1) {
        FirstBadIs(d, i);
        return Rejected(FaultOf(d[i].0));
      }
      state := AssignEntry(s, state, d, i);
    }
    assert d[..|d|] == d;
    return Applied(state);
  }

  lemma EntriesOfBoth(d: Delta, e: Delta)
    requires forall entry :: entry in d ==> entry in e
    ensures forall k :: k in AsMap(d) ==> k in AsMap(e) && AsMap(e)[k] == AsMap(d)[k]
    ensures WellFormed(e) ==> WellFormed(d)
  {
    forall k | k in AsMap(d) ensures k in AsMap(e) && AsMap(e)[k] == AsMap(d)[k] {
      assert (k, AsMap(d)[k]) in d;
      assert (k, AsMap(d)[k]) in e;
    }
    forall i | 0 <= i < |d| ensures d[i] in e {
      assert d[i] in d;
    }
  }

  /** The order in which a node lists its keys does not matter. */
  lemma {:induction false} DeltaOrderIrrelevant(s: GraphState, d: Delta, e: Delta)
    requires forall entry :: entry in d <==> entry in e
    ensures ApplyDelta(s, d).Applied? <==> ApplyDelta(s, e).Applied?
    ensures ApplyDelta(s, d).Applied? ==> ApplyDelta(s, d) == ApplyDelta(s, e)
  {
    EntriesOfBoth(d, e);
    EntriesOfBoth(e, d);
    assert AsMap(d) == AsMap(e);
  }

  /** The one delta that does what `m` and then `n` do. */
  ghost function Combine(m: map<Key, Value>, n: map<Key, Value>): map<Key, Value> {
    map k | k in m.Keys + n.Keys ::
      if k !in n then m[k]
      else if k !in m then n[k]
      else if m[k].List? && n[k].List? && k in {Messages, ToolCalls, Memory} then List(m[k].items + n[k].items)
      else if m[k].Dict? && n[k].Dict? && k == Scratchpad then Dict(m[k].entries + n[k].entries)
      else n[k]
  }

  lemma PutBack<K, V>(m: map<K, V>, k: K)
    requires k in m
    ensures (m - {k})[k := m[k]] == m
    ensures m.Keys == (m - {k}).Keys + {k}
  {}

  lemma OverlaysAssociate<K, V>(a: map<K, V>, b: map<K, V>, c: map<K, V>)
    ensures (a + b) + c == a + (b + c)
  {}

  lemma Listing(m: map<Key, Value>) returns (d: Delta)
    ensures AsMap(d) == m
    decreases |m.Keys|
  {
    if m == map[] {
      d := [];
    } else {
      var k :| k in m.Keys;
      var smaller := m - {k};
      PutBack(m, k);
      var front := Listing(smaller);
      AsMapAppend(front, k, m[k]);
      d := front + [(k, m[k])];
    }
  }

  ghost predicate AllAccepted(m: map<Key, Value>) {
    forall k :: k in m ==> Accepted(k, m[k])
  }

  lemma WellFormedByKey(d: Delta)
    ensures WellFormed(d) <==> AllAccepted(AsMap(d))
  {
    var m := AsMap(d);
    if AllAccepted(m) {
      forall i | 0 <= i < |d| ensures Accepted(d[i].0, d[i].1) {
        assert d[i].0 in m && m[d[i].0] == d[i].1;
      }
    }
  }

  lemma ContributionTwice(m: map<Key, Value>, n: map<Key, Value>, key: Key)
    requires AllAccepted(m) && AllAccepted(n) && key in {Messages, ToolCalls, Memory}
    ensures Contribution(Combine(m, n), key) == Contribution(m, key) + Contribution(n, key)
  {}

  lemma OverlayTwice(m: map<Key, Value>, n: map<Key, Value>)
    requires AllAccepted(m) && AllAccepted(n)
    ensures Overlay(Combine(m, n)) == Overlay(m) + Overlay(n)
  {}

  lemma ListsTwice(items: seq<Value>, m: map<Key, Value>, n: map<Key, Value>, key: Key)
    requires AllAccepted(m) && AllAccepted(n) && key in {Messages, ToolCalls, Memory}
    ensures items + Contribution(m, key) + Contribution(n, key) == items + Contribution(Combine(m, n), key)
  {
    ContributionTwice(m, n, key);
  }

  lemma ScratchpadTwice(entries: map<string, Value>, m: map<Key, Value>, n: map<Key, Value>)
    requires AllAccepted(m) && AllAccepted(n)
    ensures entries + Overlay(m) + Overlay(n) == entries + Overlay(Combine(m, n))
  {
    OverlayTwice(m, n);
    OverlaysAssociate(entries, Overlay(m), Overlay(n));
  }

  lemma MergeTwice(s: GraphState, m: map<Key, Value>, n: map<Key, Value>)
    requires AllAccepted(m) && AllAccepted(n)
    ensures Merge(Merge(s, m), n) == Merge(s, Combine(m, n))
  {
    ListsTwice(s.messages, m, n, Messages);
    ListsTwice(s.toolCalls, m, n, ToolCalls);
    ListsTwice(s.memory, m, n, Memory);
    ScratchpadTwice(s.scratchpad, m, n);
    ScalarsTwice(m, n);
  }

  lemma ScalarsTwice(m: map<Key, Value>, n: map<Key, Value>)
    ensures forall key, v :: key in {TenantId, UserId, RequestId, PausedReason} ==>
      Pick(Combine(m, n), key, v) == Pick(n, key, Pick(m, key, v))
  {}

  lemma CombineAccepted(m: map<Key, Value>, n: map<Key, Value>)
    requires AllAccepted(m) && AllAccepted(n)
    ensures AllAccepted(Combine(m, n))
  {}

  /** Two deltas applied in turn have the effect of one: the delta that lists their combination. */
  lemma {:induction false} DeltasCompose(s: GraphState, d: Delta, e: Delta) returns (combined: Delta)
    requires WellFormed(d) && WellFormed(e)
    ensures AsMap(combined) == Combine(AsMap(d), AsMap(e))
    ensures ApplyDelta(s, combined) == ApplyDelta(ApplyDelta(s, d).state, e)
    ensures ApplyDelta(s, combined).Applied?
  {
    combined := Listing(Combine(AsMap(d), AsMap(e)));
    WellFormedByKey(d);
    WellFormedByKey(e);
    WellFormedByKey(combined);
    CombineAccepted(AsMap(d), AsMap(e));
    MergeTwice(s, AsMap(d), AsMap(e));
  }

  // ----- graphs and their runs

  datatype NodeResult = NodeResult(next: Option<string>, delta: Delta, events: seq<Event>)

  /** What a call of a node function does: it returns or it raises. */
  datatype NodeOutcome = Returned(result: NodeResult) | Raised(fault: Fault)

  /** A node may behave differently at every step: the step number stands for the outside world. */
  type NodeFn = (nat, GraphState) -> NodeOutcome

  datatype Graph = Graph(nodes: map<string, NodeFn>, entry: string)

  datatype EndReason = COMPLETED | MAX_STEPS | PAUSED | ERROR

  datatype RunResult = RunResult(
    state: GraphState, events: seq<Event>, endReason: EndReason, steps: nat, error: Option<string>)

  /** One execution of a node together with the application of its delta. */
  datatype Attempt = Finished(result: NodeResult, after: GraphState) | Failed(fault: Fault)

  datatype Visit = Visit(node: string, before: GraphState, attempt: Attempt)

  datatype Ending =
    | NoNextNode
    | BudgetSpent(node: string)
    | PauseRequested(node: string, reason: Value)
    | NodeFailed(fault: Fault)
    | NoSuchNode(node: string)

  /** The history of a run without its event log: which nodes ran, on what, and why it stopped. */
  datatype Trace = Trace(visits: seq<Visit>, state: GraphState, ending: Ending)

  ghost function Try(g: Graph, node: string, step: nat, s: GraphState): Attempt
    requires node in g.nodes
  {
    match g.nodes[node](step, s)
    case Raised(fault) => Failed(fault)
    case Returned(result) =>
      match ApplyDelta(s, result.delta)
      case Rejected(fault) => Failed(fault)
      case Applied(after) => Finished(result, after)
  }

  /** What a graph does at a node, if it has that node. */
  type Stepper = (string, nat, GraphState) -> Option<Attempt>

  ghost function StepperOf(g: Graph): Stepper {
    (node: string, step: nat, s: GraphState) => if node in g.nodes then Some(Try(g, node, step, s)) else None
  }

  /** A node that failed, asked for a pause or named no successor ends the run. */
  ghost function TraceFrom(go: Stepper, node: Option<string>, s: GraphState, step: nat, maxSteps: int): Trace
    decreases if step < maxSteps then maxSteps - step else 0
  {
    if node.None? then Trace([], s, NoNextNode)
    else if step >= maxSteps then Trace([], s, BudgetSpent(node.value))
    else if go(node.value, step, s).None? then Trace([], s, NoSuchNode(node.value))
    else
      var visit := Visit(node.value, s, go(node.value, step, s).value);
      match visit.attempt
      case Failed(fault) => Trace([visit], s, NodeFailed(fault))
      case Finished(result, after) =>
        if after.pausedReason != Null then Trace([visit], after, PauseRequested(node.value, after.pausedReason))
        else Prefixed([visit], TraceFrom(go, result.next, after, step + 1, maxSteps))
  }

  ghost function Prefixed(done: seq<Visit>, t: Trace): Trace {
    Trace(done + t.visits, t.state, t.ending)
  }

  ghost function TraceOf(g: Graph, initial: GraphState, maxSteps: int): Trace {
    TraceFrom(StepperOf(g), Some(g.entry), initial, 0, maxSteps)
  }

  // ----- from a trace to the event log

  function Named(e: Event, node: string): Event {
    if e.node == "" then e.(node := node) else e
  }

  function StartOf(node: string): Event {
    Event(0, NodeStart, node, map[])
  }

  function EndOf(node: string, next: Option<string>): Event {
    Event(0, NodeEnd, node, map["next_node" := if next.Some? then Str(next.value) else Null])
  }

  function ErrorOf(node: string, fault: Fault): Event {
    Event(0, NodeError, node, map["error" := Str(fault.message), "exception_type" := Str(fault.exceptionType)])
  }

  /** The events of one visit: what the node emitted, between its START and its END or ERROR. */
  ghost function Block(v: Visit): seq<Event> {
    match v.attempt
    case Failed(fault) => [StartOf(v.node), ErrorOf(v.node, fault)]
    case Finished(result, _) =>
      [StartOf(v.node)] + NamedAll(result.events, v.node) + [EndOf(v.node, result.next)]
  }

  ghost function NamedAll(es: seq<Event>, node: string): seq<Event> {
    seq(|es|, i requires 0 <= i < |es| => Named(es[i], node))
  }

  ghost function Blocks(visits: seq<Visit>): seq<seq<Event>> {
    seq(|visits|, i requires 0 <= i < |visits| => Block(visits[i]))
  }

  function NoSuchNodeMessage(node: string): string {
    "graph transitioned to unknown node " + node
  }

  function ClosingEvent(ending: Ending, steps: nat, maxSteps: int): seq<Event> {
    match ending
    case NoNextNode => [Event(0, GraphEnd, "", map["steps" := Int(steps)])]
    case BudgetSpent(node) =>
      [Event(0, GraphMaxSteps, node, map["max_steps" := Int(maxSteps), "steps" := Int(steps)])]
    case PauseRequested(node, reason) => [Event(0, Pause, node, map["reason" := reason])]
    case NodeFailed(_) => []
    case NoSuchNode(node) => [Event(0, NodeError, node, map["error" := Str(NoSuchNodeMessage(node))])]
  }

  function ReasonOf(ending: Ending): EndReason {
    match ending
    case NoNextNode => COMPLETED
    case BudgetSpent(_) => MAX_STEPS
    case PauseRequested(_, _) => PAUSED
    case NodeFailed(_) => ERROR
    case NoSuchNode(_) => ERROR
  }

  function MessageOf(ending: Ending): Option<string> {
    match ending
    case NodeFailed(fault) => Some(fault.message)
    case NoSuchNode(node) => Some(NoSuchNodeMessage(node))
    case _ => None
  }

  /** Events take their position in the log as their sequence number. */
  ghost function Number(es: seq<Event>): seq<Event> {
    seq(|es|, i requires 0 <= i < |es| => es[i].(sequence := i))
  }

  ghost function Log(visits: seq<Visit>): seq<Event> {
    Flatten(Blocks(visits))
  }

  ghost function Replay(t: Trace, maxSteps: int): RunResult {
    RunResult(
      t.state,
      Number(Log(t.visits) + ClosingEvent(t.ending, |t.visits|, maxSteps)),
      ReasonOf(t.ending),
      |t.visits|,
      MessageOf(t.ending))
  }

  ghost function RunOf(g: Graph, initial: GraphState, maxSteps: int): RunResult {
    Replay(TraceOf(g, initial, maxSteps), maxSteps)
  }

  lemma NumberAppend(es: seq<Event>, e: Event)
    ensures Number(es + [e]) == Number(es) + [e.(sequence := |es|)]
  {}

  lemma LogAppend(visits: seq<Visit>, v: Visit)
    ensures Log(visits + [v]) == Log(visits) + Block(v)
  {
    var blocks := Blocks(visits + [v]);
    assert blocks[..|blocks| - 1] == Blocks(visits);
  }

  lemma PrefixedTwice(done: seq<Visit>, v: Visit, t: Trace)
    ensures Prefixed(done, Prefixed([v], t)) == Prefixed(done + [v], t)
  {
    assert done + ([v] + t.visits) == (done + [v]) + t.visits;
  }

  lemma PrefixedLast(done: seq<Visit>, s: GraphState, ending: Ending)
    ensures Prefixed(done, Trace([], s, ending)) == Trace(done, s, ending)
  {
    assert done + [] == done;
  }

  method Emit(events: seq<Event>, ghost raw: seq<Event>, e: Event) returns (events': seq<Event>)
    requires events == Number(raw)
    ensures events' == Number(raw + [e])
  {
    NumberAppend(raw, e);
    events' := events + [e.(sequence := |events|)];
  }

  /** Copies a node's events into the log, renumbered and named. */
  method EmitAll(events: seq<Event>, ghost raw: seq<Event>, emitted: seq<Event>, node: string)
    returns (events': seq<Event>)
    requires events == Number(raw)
    ensures events' == Number(raw + NamedAll(emitted, node))
  {
    events' := events;
    assert raw + NamedAll(emitted[..0], node) == raw;
    for i := 0 to |emitted|
      invariant events' == Number(raw + NamedAll(emitted[..i], node))
    {
      ghost var front := raw + NamedAll(emitted[..i], node);
      assert front + [Named(emitted[i], node)] == raw + NamedAll(emitted[..i + 1], node);
      events' := Emit(events', front, Named(emitted[i], node));
    }
    assert emitted[..|emitted|] == emitted;
  }

  /** The `try` block: the node runs on the state and its delta is applied. */
  method Attempted(g: Graph, node: string, step: nat, state: GraphState) returns (attempt: Attempt)
    requires node in g.nodes
    ensures StepperOf(g)(node, step, state) == Some(attempt)
  {
    var outcome := g.nodes[node](step, state);
    if outcome.Raised? {
      return Failed(outcome.fault);
    }
    var applied := ApplyDeltaInOrder(state, outcome.result.delta);
    attempt := if applied.Rejected? then Failed(applied.fault) else Finished(outcome.result, applied.state);
  }

  lemma BlockOfFailed(raw: seq<Event>, v: Visit)
    requires v.attempt.Failed?
    ensures raw + [StartOf(v.node)] + [ErrorOf(v.node, v.attempt.fault)] == raw + Block(v)
  {}

  lemma BlockOfFinished(raw: seq<Event>, v: Visit)
    requires v.attempt.Finished?
    ensures raw + [StartOf(v.node)] + NamedAll(v.attempt.result.events, v.node) +
            [EndOf(v.node, v.attempt.result.next)] ==
            raw + Block(v)
  {}

  /** The log entries of one visit, between `START` and `END` or `ERROR`. */
  method Record(events: seq<Event>, ghost done: seq<Visit>, v: Visit) returns (events': seq<Event>)
    requires events == Number(Log(done))
    ensures events' == Number(Log(done + [v]))
  {
    LogAppend(done, v);
    ghost var raw := Log(done);
    events' := Emit(events, raw, StartOf(v.node));
    if v.attempt.Failed? {
      events' := Emit(events', raw + [StartOf(v.node)], ErrorOf(v.node, v.attempt.fault));
      BlockOfFailed(raw, v);
    } else {
      var result := v.attempt.result;
      events' := EmitAll(events', raw + [StartOf(v.node)], result.events, v.node);
      ghost var before := raw + [StartOf(v.node)] + NamedAll(result.events, v.node);
      events' := Emit(events', before, EndOf(v.node, result.next));
      BlockOfFinished(raw, v);
    }
  }

  /** The event that closes the log and the result that is handed back. */
  method Conclude(
    state: GraphState, events: seq<Event>, ghost visits: seq<Visit>, ending: Ending, steps: nat, maxSteps: int)
    returns (r: RunResult)
    requires steps == |visits| && events == Number(Log(visits))
    ensures r == Replay(Trace(visits, state, ending), maxSteps)
  {
    var closing := ClosingEvent(ending, steps, maxSteps);
    var events' := events;
    if closing != [] {
      events' := Emit(events, Log(visits), closing[0]);
      assert [closing[0]] == closing;
    } else {
      assert Log(visits) + [] == Log(visits);
    }
    r := RunResult(state, events', ReasonOf(ending), steps, MessageOf(ending));
  }

  /** The engine's loop. */
  method Run(g: Graph, initial: GraphState, maxSteps: int) returns (r: RunResult)
    ensures r == RunOf(g, initial, maxSteps)
  {
    var state, events: seq<Event>, current, steps := initial, [], Some(g.entry), 0;
    ghost var done: seq<Visit>, go := [], StepperOf(g);
    while current.Some?
      invariant steps == |done|
      invariant events == Number(Log(done))
      invariant TraceOf(g, initial, maxSteps) == Prefixed(done, TraceFrom(go, current, state, steps, maxSteps))
      decreases current.Some?, maxSteps - steps
    {
      var node := current.value;
      if steps >= maxSteps {
        PrefixedLast(done, state, BudgetSpent(node));
        r := Conclude(state, events, done, BudgetSpent(node), steps, maxSteps);
        return;
      }
      if node !in g.nodes {
        PrefixedLast(done, state, NoSuchNode(node));
        r := Conclude(state, events, done, NoSuchNode(node), steps, maxSteps);
        return;
      }
      var attempt := Attempted(g, node, steps, state);
      var visit := Visit(node, state, attempt);
      events := Record(events, done, visit);
      if attempt.Failed? {
        r := Conclude(state, events, done + [visit], NodeFailed(attempt.fault), steps + 1, maxSteps);
        return;
      }
      state := attempt.after;
      if state.pausedReason != Null {
        r := Conclude(state, events, done + [visit], PauseRequested(node, state.pausedReason), steps + 1, maxSteps);
        return;
      }
      PrefixedTwice(done, visit, TraceFrom(go, attempt.result.next, state, steps + 1, maxSteps));
      done := done + [visit];
      steps := steps + 1;
      current := attempt.result.next;
    }
    PrefixedLast(done, state, NoNextNode);
    r := Conclude(state, events, done, NoNextNode, steps, maxSteps);
  }
}
