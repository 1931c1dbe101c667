/** The guarded tool: a call is denied, held for approval, or handed to the tool runner. */
module ToolGateway {
  import opened Values
  import opened GraphEngine
  import opened PolicySupervisor
  import opened Citations
  import PolicyGraph
  import ToolRunner

  type Outcome = ToolRunner.Outcome

  /** What a registered tool says of itself. */
  datatype ToolClass = ToolClass(riskLevel: string, requiresApproval: bool, idempotencyScope: string)

  /** The fields that the supervisor reads out of a tool's output. */
  datatype Reading = Reading(answer: string, confidence: real, citations: seq<Citation>, retrievalMode: string)

  const NEEDS_APPROVAL := "tool requires explicit human approval before execution"

  function RawInput(input: ToolInput): Value {
    Dict(map["question" := Str(input.question), "tenant_id" := Str(input.tenantId),
             "customer_id" := Str(input.customerId)])
  }

  function Denial(name: string, reason: string, threadId: string): Value {
    Dict(map["tool_name" := Str(name), "decision" := Str("deny"), "reason" := Str(reason),
             "thread_id" := Str(threadId)])
  }

  function Decision(name: string, tool: ToolClass, threadId: string, held: bool): Value {
    Dict(map[
      "tool_name" := Str(name), "risk_level" := Str(tool.riskLevel), "requires_approval" := Bool(tool.requiresApproval),
      "idempotency_scope" := Str(tool.idempotencyScope), "thread_id" := Str(threadId),
      "decision" := Str(if held then "interrupt" else "allow"),
      "reason" := Str(if held then NEEDS_APPROVAL
                      else if tool.riskLevel == "low" then "tool classified as low-risk" else "")])
  }

  predicate Held(tool: ToolClass, approved: bool) {
    (tool.riskLevel == "high" || tool.requiresApproval) && !approved
  }

  function Handed(
    name: string, status: string, input: ToolInput, output: map<string, Value>, read: map<string, Value> -> Reading,
    guardrail: Value, events: seq<Event>): Guarded
  {
    var r := read(output);
    Guarded(name, status, RawInput(input), Dict(output), r.answer, r.confidence, r.citations, r.retrievalMode,
            [guardrail], events)
  }

  /** `run_guarded_tool`; `run` is the outcome that the runner would have. */
  function RunGuardedTool(
    name: string, tool: Option<ToolClass>, input: ToolInput, run: Outcome, approved: bool,
    read: map<string, Value> -> Reading): Guarded
    requires run.Result?
  {
    match tool
    case None =>
      Handed(name, "failed", input, map[], read, Denial(name, ToolRunner.NotRegistered(name), input.threadId), [])
    case Some(t) =>
      if Held(t, approved) then
        Handed(name, "interrupted", input, map[], read, Decision(name, t, input.threadId, true),
               [Event(0, Pause, "tool_gateway", map["tool" := Str(name), "reason" := Str(NEEDS_APPROVAL)])])
      else
        Handed(name, PolicyGraph.StatusName(run.status), input, run.payload, read,
               Decision(name, t, input.threadId, false),
               PolicyGraph.RunnerEvents(name, RawInput(input), run))
  }

  /** The events of a guarded call are a PAUSE exactly if it was held, and else the two of the runner or none. */
  lemma GuardedEvents(
    name: string, tool: Option<ToolClass>, input: ToolInput, run: Outcome, approved: bool,
    read: map<string, Value> -> Reading)
    requires run.Result?
    ensures var g := RunGuardedTool(name, tool, input, run, approved, read);
            && (g.status == "interrupted" <==> tool.Some? && Held(tool.value, approved))
            && forall i :: 0 <= i < |g.events| ==>
                 g.events[i].kind in (if g.status == "interrupted" then {Pause} else {ToolCallStart, ToolCallEnd})
  {}

  /** The tool as the supervisor uses it. A call in which the runner raises leaves the supervisor altogether. */
  function GatewayTool(
    name: string, tool: Option<ToolClass>, outcomes: ToolInput -> Outcome, approved: bool,
    read: map<string, Value> -> Reading): Tool
    requires forall input :: outcomes(input).Result?
  {
    (input: ToolInput) => RunGuardedTool(name, tool, input, outcomes(input), approved, read)
  }
}
