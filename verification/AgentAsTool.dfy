/** `call_agent`: one agent delegates to another under a dynamically scoped depth counter. */
module AgentAsTool {
  import GraphEngine
  import opened Citations

  type Fault = GraphEngine.Fault

  datatype AgentName = PolicyQa | TicketTriage | OrderAnomaly

  function ExecutorOf(a: AgentName): string {
    match a
    case PolicyQa => "policy_supervisor_agent"
    case TicketTriage => "ticket_router_agent"
    case OrderAnomaly => "order_anomaly_agent"
  }

  datatype CallInput = CallInput(
    agent: AgentName, question: string, tenantId: string, customerId: string, caller: string)

  datatype AgentResult = AgentResult(
    agentName: string, status: string, answer: string, confidence: real, citations: seq<Citation>, requiresReview: bool)

  datatype CallOutput = CallOutput(
    agentName: string, status: string, answer: string, confidence: real, citations: seq<Citation>,
    requiresReview: bool, depth: int, error: string)

  function Refusal(agentName: string, depth: int, error: string): CallOutput {
    CallOutput(agentName, "failed", "", 0.0, [], false, depth, error)
  }

  function ToOutput(r: AgentResult, depth: int): CallOutput {
    CallOutput(r.agentName, r.status, r.answer, r.confidence, r.citations, r.requiresReview, depth, "")
  }

  const TOO_DEEP := "refused: max depth exceeded"
  const SELF_DELEGATION := "refused: self-delegation would loop"

  /** What the caller of `invoke` gets: an output, or the exception of the agent it called. */
  datatype Reply = Answered(output: CallOutput) | Raised(fault: Fault)

  /** What a dispatched agent does next, given the replies to its invocations so far. */
  datatype Move = Invoke(input: CallInput) | Finish(result: AgentResult) | Throw(fault: Fault)

  /** The agents: an arbitrary strategy for every place in the call tree. A place is the list of the numbers
      of the invocations that lead to it. */
  type Agents = (seq<nat>, seq<Reply>) -> Move

  /** No agent makes more than `b` invocations. */
  ghost predicate AtMost(agents: Agents, b: nat) {
    forall place, replies {:trigger agents(place, replies)} :: |replies| >= b ==> !agents(place, replies).Invoke?
  }

  datatype Ended = Finished(result: AgentResult) | Threw(fault: Fault)

  predicate Refuses(maxDepth: int, depth: int, input: CallInput) {
    depth + 1 > maxDepth || input.caller == ExecutorOf(input.agent)
  }

  function RefusalOf(maxDepth: int, depth: int, input: CallInput): CallOutput {
    Refusal(ExecutorOf(input.agent), depth + 1, if depth + 1 > maxDepth then TOO_DEEP else SELF_DELEGATION)
  }

  function ReplyOf(end: Ended, depth: int): Reply {
    match end
    case Finished(result) => Answered(ToOutput(result, depth))
    case Threw(fault) => Raised(fault)
  }

  ghost function Room(maxDepth: int, depth: int): nat {
    if depth < maxDepth then maxDepth - depth else 0
  }

  // ----- the call tree, with the depth of every dispatch in the order of dispatch

  ghost function Invocation(
    maxDepth: int, depth: int, agents: Agents, b: nat, input: CallInput, place: seq<nat>): (Reply, seq<int>)
    requires AtMost(agents, b)
    decreases Room(maxDepth, depth), 0, 0
  {
    if Refuses(maxDepth, depth, input) then (Answered(RefusalOf(maxDepth, depth, input)), [])
    else
      var (end, dispatched) := AgentRun(maxDepth, depth + 1, agents, b, place, []);
      (ReplyOf(end, depth + 1), [depth + 1] + dispatched)
  }

  ghost function AgentRun(
    maxDepth: int, depth: int, agents: Agents, b: nat, place: seq<nat>, replies: seq<Reply>): (Ended, seq<int>)
    requires AtMost(agents, b)
    decreases Room(maxDepth, depth), 1, if |replies| < b then b - |replies| else 0
  {
    match agents(place, replies)
    case Finish(result) => (Finished(result), [])
    case Throw(fault) => (Threw(fault), [])
    case Invoke(input) =>
      var (reply, first) := Invocation(maxDepth, depth, agents, b, input, place + [|replies|]);
      var (end, rest) := AgentRun(maxDepth, depth, agents, b, place, replies + [reply]);
      (end, first + rest)
  }

  /** What is still to come after the first `dispatched` of a whole run. */
  ghost predicate Remains(whole: (Ended, seq<int>), dispatched: seq<int>, rest: (Ended, seq<int>)) {
    whole.0 == rest.0 && whole.1 == dispatched + rest.1
  }

  lemma InvokeUnfolds(maxDepth: int, depth: int, agents: Agents, b: nat, place: seq<nat>, replies: seq<Reply>)
    requires AtMost(agents, b) && agents(place, replies).Invoke?
    ensures var made := Invocation(maxDepth, depth, agents, b, agents(place, replies).input, place + [|replies|]);
            var later := AgentRun(maxDepth, depth, agents, b, place, replies + [made.0]);
            AgentRun(maxDepth, depth, agents, b, place, replies) == (later.0, made.1 + later.1)
  {}

  lemma RemainsAfter(whole: (Ended, seq<int>), dispatched: seq<int>, first: seq<int>, later: (Ended, seq<int>))
    requires Remains(whole, dispatched, (later.0, first + later.1))
    ensures Remains(whole, dispatched + first, later)
  {
    assert dispatched + (first + later.1) == (dispatched + first) + later.1;
  }

  // ----- the tool

  /** The tool with the context variable that holds the current depth. */
  class CallAgentTool {
    const maxDepth: int
    var depth: int

    constructor (maxDepth: int)
      ensures this.maxDepth == maxDepth && depth == 0
    {
      this.maxDepth := maxDepth;
      depth := 0;
    }

    /** `invoke`: the depth is set for the dispatch and reset afterwards, also when the agent raises. */
    method Invoke(
      agents: Agents, b: nat, input: CallInput, place: seq<nat>)
      returns (reply: Reply, dispatched: seq<int>)
      requires AtMost(agents, b)
      modifies this
      ensures depth == old(depth)
      ensures (reply, dispatched) == Invocation(maxDepth, old(depth), agents, b, input, place)
      decreases Room(maxDepth, depth), 0
    {
      var nextDepth := depth + 1;
      if nextDepth > maxDepth {
        return Answered(Refusal(ExecutorOf(input.agent), nextDepth, TOO_DEEP)), [];
      }
      if input.caller == ExecutorOf(input.agent) {
        return Answered(Refusal(ExecutorOf(input.agent), nextDepth, SELF_DELEGATION)), [];
      }
      var token := depth;
      depth := nextDepth;
      var end;
      end, dispatched := Dispatch(agents, b, place);
      reply := ReplyOf(end, nextDepth);
      dispatched := [nextDepth] + dispatched;
      depth := token;
    }

    /** The dispatched agent: it invokes the tool as often as its strategy says and then returns or raises. */
    method Dispatch(agents: Agents, b: nat, place: seq<nat>) returns (end: Ended, dispatched: seq<int>)
      requires AtMost(agents, b)
      modifies this
      ensures depth == old(depth)
      ensures (end, dispatched) == AgentRun(maxDepth, old(depth), agents, b, place, [])
      decreases Room(maxDepth, depth), 1
    {
      ghost var whole := AgentRun(maxDepth, depth, agents, b, place, []);
      var replies: seq<Reply> := [];
      dispatched := [];
      while true
        invariant depth == old(depth)
        invariant Remains(whole, dispatched, AgentRun(maxDepth, depth, agents, b, place, replies))
        decreases if |replies| < b then b - |replies| else 0
      {
        match agents(place, replies) {
          case Finish(result) =>
            assert dispatched + [] == dispatched;
            return Finished(result), dispatched;
          case Throw(fault) =>
            assert dispatched + [] == dispatched;
            return Threw(fault), dispatched;
          case Invoke(input) =>
            InvokeUnfolds(maxDepth, depth, agents, b, place, replies);
            var reply, first := Invoke(agents, b, input, place + [|replies|]);
            RemainsAfter(whole, dispatched, first, AgentRun(maxDepth, depth, agents, b, place, replies + [reply]));
            replies := replies + [reply];
            dispatched := dispatched + first;
        }
      }
    }
  }

  // ----- the guarantees

  /** A refused call dispatches nothing and says so; any other call dispatches, at the next depth first. */
  lemma RefusedExactlyWhen(maxDepth: int, depth: int, agents: Agents, b: nat, input: CallInput, place: seq<nat>)
    requires AtMost(agents, b)
    ensures var (reply, dispatched) := Invocation(maxDepth, depth, agents, b, input, place);
            && (dispatched == [] <==> Refuses(maxDepth, depth, input))
            && (dispatched != [] ==> dispatched[0] == depth + 1)
            && (Refuses(maxDepth, depth, input) ==>
                  reply.Answered? && reply.output.status == "failed" && reply.output.depth == depth + 1 &&
                    reply.output.error != "")
  {}

  ghost predicate Within(dispatched: seq<int>, low: int, high: int) {
    forall i :: 0 <= i < |dispatched| ==> low <= dispatched[i] <= high
  }

  lemma {:induction false} InvocationWithin(
    maxDepth: int, depth: int, agents: Agents, b: nat, input: CallInput, place: seq<nat>)
    requires AtMost(agents, b)
    ensures Within(Invocation(maxDepth, depth, agents, b, input, place).1, depth + 1, maxDepth)
    decreases Room(maxDepth, depth), 0, 0
  {
    if !Refuses(maxDepth, depth, input) {
      AgentRunWithin(maxDepth, depth + 1, agents, b, place, []);
    }
  }

  lemma {:induction false} AgentRunWithin(
    maxDepth: int, depth: int, agents: Agents, b: nat, place: seq<nat>, replies: seq<Reply>)
    requires AtMost(agents, b)
    ensures Within(AgentRun(maxDepth, depth, agents, b, place, replies).1, depth + 1, maxDepth)
    decreases Room(maxDepth, depth), 1, if |replies| < b then b - |replies| else 0
  {
    var move := agents(place, replies);
    if move.Invoke? {
      var (reply, first) := Invocation(maxDepth, depth, agents, b, move.input, place + [|replies|]);
      InvocationWithin(maxDepth, depth, agents, b, move.input, place + [|replies|]);
      AgentRunWithin(maxDepth, depth, agents, b, place, replies + [reply]);
    }
  }

  /** The dispatches that one invocation can cause with `room` levels left. */
  ghost function Cost(b: nat, room: nat): nat {
    if room == 0 then 0 else 1 + b * Cost(b, room - 1)
  }

  lemma {:induction false} InvocationCost(
    maxDepth: int, depth: int, agents: Agents, b: nat, input: CallInput, place: seq<nat>)
    requires AtMost(agents, b)
    ensures |Invocation(maxDepth, depth, agents, b, input, place).1| <= Cost(b, Room(maxDepth, depth))
    decreases Room(maxDepth, depth), 0, 0
  {
    if !Refuses(maxDepth, depth, input) {
      AgentRunCost(maxDepth, depth + 1, agents, b, place, []);
      assert Room(maxDepth, depth) == Room(maxDepth, depth + 1) + 1;
    }
  }

  lemma {:induction false} AgentRunCost(
    maxDepth: int, depth: int, agents: Agents, b: nat, place: seq<nat>, replies: seq<Reply>)
    requires AtMost(agents, b)
    ensures var left := if |replies| < b then b - |replies| else 0;
            |AgentRun(maxDepth, depth, agents, b, place, replies).1| <= left * Cost(b, Room(maxDepth, depth))
    decreases Room(maxDepth, depth), 1, if |replies| < b then b - |replies| else 0
  {
    var move, cost := agents(place, replies), Cost(b, Room(maxDepth, depth));
    if move.Invoke? {
      var (reply, first) := Invocation(maxDepth, depth, agents, b, move.input, place + [|replies|]);
      InvocationCost(maxDepth, depth, agents, b, move.input, place + [|replies|]);
      AgentRunCost(maxDepth, depth, agents, b, place, replies + [reply]);
      assert (b - |replies|) * cost == (b - |replies| - 1) * cost + cost;
    }
  }

  ghost function Power(b: nat, n: nat): nat {
    if n == 0 then 1 else b * Power(b, n - 1)
  }

  /** b + b^2 + ... + b^n. */
  ghost function PowerSum(b: nat, n: nat): nat {
    if n == 0 then 0 else PowerSum(b, n - 1) + Power(b, n)
  }

  lemma {:induction false} PowerSumShift(b: nat, n: nat)
    ensures b + b * PowerSum(b, n) == PowerSum(b, n + 1)
  {
    assert Power(b, 1) == b;
    if n > 0 {
      PowerSumShift(b, n - 1);
      assert b * (PowerSum(b, n - 1) + Power(b, n)) == b * PowerSum(b, n - 1) + b * Power(b, n);
    }
  }

  lemma {:induction false} CostIsPowerSum(b: nat, room: nat)
    ensures b * Cost(b, room) == PowerSum(b, room)
  {
    if room > 0 {
      CostIsPowerSum(b, room - 1);
      PowerSumShift(b, room - 1);
      assert b * (1 + b * Cost(b, room - 1)) == b + b * (b * Cost(b, room - 1));
    }
  }

  /** An agent that runs at depth 0 causes, through all levels of delegation, at most b + b^2 + ... + b^maxDepth
      dispatches, each of them at a depth from 1 to maxDepth, however the agents behave and whoever raises. */
  lemma BoundedDelegation(maxDepth: nat, agents: Agents, b: nat, place: seq<nat>)
    requires AtMost(agents, b)
    ensures var dispatched := AgentRun(maxDepth, 0, agents, b, place, []).1;
            |dispatched| <= PowerSum(b, maxDepth) && Within(dispatched, 1, maxDepth)
  {
    AgentRunCost(maxDepth, 0, agents, b, place, []);
    CostIsPowerSum(b, maxDepth);
    AgentRunWithin(maxDepth, 0, agents, b, place, []);
  }
}
