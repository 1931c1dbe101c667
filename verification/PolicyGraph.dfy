/** The policy question graph: a ReAct loop of plan, act and observe on the graph engine. */
module PolicyGraph {
  import opened Values
  import opened GraphEngine
  import opened ReactPlanner
  import ToolRunner

  const PLAN := "plan"
  const ACT := "act"
  const OBSERVE := "observe"
  const FINALIZE := "finalize"
  const CALL_AGENT := "call_agent"
  const MAX_REACT_STEPS := 8

  /** Everything the nodes meet outside the state, at each step of the run. */
  datatype World = World(
    settings: Settings,
    registered: nat -> set<string>,
    exchanges: nat -> Exchange,
    tools: (nat, string) -> ToolRunner.Outcome)

  /** The tools shown to the planner: the allow-listed ones that are registered. */
  method AllowedToolCatalogInOrder(agentAsTool: bool, registered: set<string>) returns (catalog: seq<string>)
    ensures catalog == AllowedToolCatalog(agentAsTool, registered)
  {
    var allowed := [POLICY_SEARCH];
    if agentAsTool {
      allowed := allowed + [CALL_AGENT];
    }
    catalog := [];
    for i := 0 to |allowed|
      invariant catalog == Registered(allowed[..i], registered)
    {
      assert allowed[..i + 1][..i] == allowed[..i];
      if allowed[i] in registered {
        catalog := catalog + [allowed[i]];
      }
    }
    assert allowed[..|allowed|] == allowed;
  }

  function Registered(names: seq<string>, registered: set<string>): seq<string> {
    if names == [] then []
    else
      Registered(names[..|names| - 1], registered) +
      (if names[|names| - 1] in registered then [names[|names| - 1]] else [])
  }

  function AllowedToolCatalog(agentAsTool: bool, registered: set<string>): seq<string> {
    Registered(if agentAsTool then [POLICY_SEARCH] + [CALL_AGENT] else [POLICY_SEARCH], registered)
  }

  function Available(w: World, step: nat): set<string> {
    set name | name in AllowedToolCatalog(w.settings.agentAsTool, w.registered(step))
  }

  // ----- the nodes

  /** A list kept in the scratchpad; absent reads as empty, anything but a list raises. */
  function ListAt(m: map<string, Value>, key: string): Option<seq<Value>> {
    if key !in m then Some([]) else if m[key].List? then Some(m[key].items) else None
  }

  function IntAt(m: map<string, Value>, key: string): Option<int> {
    if key !in m then Some(0) else if m[key].Int? then Some(m[key].i) else None
  }

  const BAD_SCRATCHPAD := Raised(Fault("unexpected scratchpad entry", "TypeError"))

  function PlanDict(r: PlanResponse): map<string, Value> {
    if r.action == CallTool && r.tool.Some? && r.tool.value != "" then
      map["action" := Str("call_tool"), "tool" := Str(r.tool.value), "tool_args" := Dict(r.toolArgs),
          "thought" := Str(r.thought), "fallback_used" := Bool(r.fallbackUsed)]
    else
      map["action" := Str("finalize"), "thought" := Str(r.thought), "fallback_used" := Bool(r.fallbackUsed)]
  }

  function NextOf(r: PlanResponse): string {
    if r.action == CallTool && r.tool.Some? && r.tool.value != "" then ACT else FINALIZE
  }

  predicate Readable(s: GraphState) {
    && ListAt(s.scratchpad, "observations").Some?
    && ListAt(s.scratchpad, "thoughts").Some?
    && IntAt(s.scratchpad, "react_step").Some?
  }

  /** What the plan node writes to the scratchpad for a verdict. */
  function PlanUpdate(s: GraphState, r: PlanResponse): map<string, Value>
    requires Readable(s)
  {
    map["plan" := Dict(PlanDict(r)),
        "thoughts" := List(ListAt(s.scratchpad, "thoughts").value + (if r.thought != "" then [Str(r.thought)] else [])),
        "react_step" := Int(IntAt(s.scratchpad, "react_step").value + 1)]
  }

  function PlanNode(w: World, step: nat, s: GraphState): NodeOutcome {
    if !Readable(s) then BAD_SCRATCHPAD
    else
      match PlanNextAction(w.settings, w.exchanges(step), ListAt(s.scratchpad, "observations").value,
                           Available(w, step))
      case Raises(name) => Raised(Fault("the planner raised", name))
      case Verdict(r) => Returned(NodeResult(Some(NextOf(r)), [(Scratchpad, Dict(PlanUpdate(s, r)))], []))
  }

  function StatusName(status: ToolRunner.Status): string {
    match status
    case Completed => "completed"
    case ValidationError => "validation_error"
    case Failed => "failed"
    case CircuitOpen => "circuit_open"
  }

  /** The two events that the tool runner reports for a call. */
  function RunnerEvents(tool: string, input: Value, r: ToolRunner.Outcome): seq<Event>
    requires r.Result?
  {
    var closing := map["tool" := Str(tool), "status" := Str(StatusName(r.status)), "attempts" := Int(r.attempts)];
    [Event(0, ToolCallStart, "tool_runner", map["tool" := Str(tool), "input" := input]),
     Event(0, ToolCallEnd, "tool_runner",
           if r.error.Some? then closing["error" := Str(r.error.value)] else closing)]
  }

  function RawInput(s: GraphState): Value {
    Dict(map["question" := if "question" in s.scratchpad then s.scratchpad["question"] else Str(""),
             "tenant_id" := s.tenantId,
             "customer_id" := if "customer_id" in s.scratchpad then s.scratchpad["customer_id"] else Str("")])
  }

  function CallRecord(tool: string, input: Value, r: ToolRunner.Outcome): Value
    requires r.Result?
  {
    Dict(map["tool_name" := Str(tool), "status" := Str(StatusName(r.status)),
             "input_payload" := input, "output_payload" := Dict(r.payload)])
  }

  /** The tool named by the plan, if the plan is to call one. */
  function PlannedTool(s: GraphState): Option<string> {
    if "plan" in s.scratchpad && s.scratchpad["plan"].Dict? then
      var plan := s.scratchpad["plan"].entries;
      if Get(plan, "action") == Str("call_tool") && Get(plan, "tool").Str? && Get(plan, "tool").s != ""
      then Some(Get(plan, "tool").s) else None
    else None
  }

  /** The exception that leaves the tool runner; where it is not the runner's own, only its class. */
  function FaultOfRunner(escape: ToolRunner.Escape): Fault {
    match escape
    case NothingReturned => Fault("output==None implies last_error set", "AssertionError")
    case NotAModel => Fault("no model_dump", "AttributeError")
    case PauseRaised => Fault("the pause raised", "Exception")
    case ValidatorBroke => Fault("the validator raised", "Exception")
    case ErrorUnprintable => Fault("the error has no text", "Exception")
    case Aborted => Fault("the tool raised", "BaseException")
  }

  function ActNode(w: World, step: nat, s: GraphState): NodeOutcome {
    match PlannedTool(s)
    case None => Returned(NodeResult(Some(FINALIZE), [], []))
    case Some(tool) =>
      match w.tools(step, tool)
      case Raised(escape) => Raised(FaultOfRunner(escape))
      case Result(status, attempts, payload, error) =>
        var r := ToolRunner.Result(status, attempts, payload, error);
        Returned(NodeResult(
          Some(OBSERVE),
          [(Scratchpad, Dict(map["last_tool_status" := Str(StatusName(status))])),
           (ToolCalls, List([CallRecord(tool, RawInput(s), r)]))],
          RunnerEvents(tool, RawInput(s), r)))
  }

  function ObserveNode(w: World, step: nat, s: GraphState): NodeOutcome {
    if s.toolCalls == [] then Returned(NodeResult(Some(PLAN), [], []))
    else
      var last, observations := s.toolCalls[|s.toolCalls| - 1], ListAt(s.scratchpad, "observations");
      if !last.Dict? || !({"tool_name", "status", "output_payload"} <= last.entries.Keys) || observations.None?
      then BAD_SCRATCHPAD
      else
        var seen := Dict(map["tool" := last.entries["tool_name"], "status" := last.entries["status"],
                             "output" := last.entries["output_payload"]]);
        Returned(NodeResult(
          Some(PLAN), [(Scratchpad, Dict(map["observations" := List(observations.value + [seen])]))], []))
  }

  /** `float(v)`. */
  function AsFloat(python: Python, v: Value): Option<real> {
    match v
    case Real(r) => Some(r)
    case Int(i) => Some(i as real)
    case Bool(b) => Some(if b then 1.0 else 0.0)
    case Str(s) => python.toFloat(s)
    case _ => None
  }

  function NoEvidence(s: GraphState): map<string, Value> {
    map["answer" := Str(if Truthy(Get(s.scratchpad, "is_chinese")) then "no policy evidence (zh)"
                        else "no policy evidence"),
        "confidence" := Real(0.0), "citations" := List([]),
        "retrieval_mode" := if "last_tool_status" in s.scratchpad then s.scratchpad["last_tool_status"]
          else Str("unavailable"),
        "prompt_template_id" := Null]
  }

  function Answered(output: map<string, Value>, confidence: real): map<string, Value> {
    map["answer" := if "answer" in output then output["answer"] else Str(""),
        "confidence" := Real(confidence),
        "citations" := if "citations" in output then output["citations"] else List([]),
        "retrieval_mode" := if "retrieval_mode" in output then output["retrieval_mode"] else Str("unknown"),
        "prompt_template_id" := Get(output, "prompt_template_id")]
  }

  function FinalizeNode(w: World, step: nat, s: GraphState): NodeOutcome {
    var observations := ListAt(s.scratchpad, "observations");
    if observations.None? then BAD_SCRATCHPAD
    else if observations.value == [] || Get(s.scratchpad, "last_tool_status") != Str("completed") then
      Returned(NodeResult(None, [(Scratchpad, Dict(map["final" := Dict(NoEvidence(s))]))], []))
    else
      var last := observations.value[|observations.value| - 1];
      if !last.Dict? || "output" !in last.entries || !last.entries["output"].Dict? then BAD_SCRATCHPAD
      else
        var output := last.entries["output"].entries;
        var confidence := if "confidence" in output then AsFloat(w.settings.python, output["confidence"])
          else Some(0.0);
        if confidence.None? then Raised(Fault("confidence is not a number", "ValueError"))
        else Returned(NodeResult(
          None, [(Scratchpad, Dict(map["final" := Dict(Answered(output, confidence.value))]))], []))
  }

  function BuildPolicyGraph(w: World): Graph {
    Graph(
      map[PLAN := (step: nat, s: GraphState) => PlanNode(w, step, s),
          ACT := (step: nat, s: GraphState) => ActNode(w, step, s),
          OBSERVE := (step: nat, s: GraphState) => ObserveNode(w, step, s),
          FINALIZE := (step: nat, s: GraphState) => FinalizeNode(w, step, s)],
      PLAN)
  }

  function InitialState(tenantId: string, customerId: string, question: string, isChinese: bool): GraphState {
    GraphState(
      Str(tenantId), Str(""), Str(""), [],
      map["question" := Str(question), "customer_id" := Str(customerId), "is_chinese" := Bool(isChinese)],
      [], [], Null)
  }

  // ----- from a run to the agent's result

  datatype Execution = Execution(status: string, confidence: real, requiresHumanReview: bool)

  function FinalConfidence(python: Python, s: GraphState): real {
    var final := Get(s.scratchpad, "final");
    if final.Dict? && "confidence" in final.entries && AsFloat(python, final.entries["confidence"]).Some?
    then AsFloat(python, final.entries["confidence"]).value
    else 0.0
  }

  function RunResultToExecution(python: Python, r: RunResult, threshold: real): Execution {
    var confidence := FinalConfidence(python, r.state);
    var review := r.endReason == PAUSED || confidence < threshold;
    Execution(
      if r.endReason == ERROR then "failed"
      else if r.endReason == PAUSED || review then "needs_review"
      else "completed",
      confidence,
      review)
  }
}
