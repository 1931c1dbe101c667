/** The ReAct planner: an LLM verdict checked against an allow-list, with a hard-coded fallback. */
module ReactPlanner {
  import opened Values
  import opened GraphEngine
  import opened Text

  datatype Action = CallTool | Finalize

  datatype PlanResponse = PlanResponse(
    action: Action, tool: Option<string>, toolArgs: map<string, Value>, thought: string, fallbackUsed: bool)

  // ----- what the interpreter does with JSON values

  /** An exception, and whether the planner's `except` clause names its type. */
  datatype Trouble = Trouble(exceptionType: string, caught: bool)

  datatype Conversion = Whole(n: int) | Fails(trouble: Trouble)

  /** `json.loads`: a value, a JSONDecodeError, or another exception, as for too deep a nesting. */
  datatype Loaded = Loaded(value: Value) | Malformed | Broke(exceptionType: string)

  /** `str` and `int` of the values whose result does not show in the model (JSON as Python reads it has infinite
      numbers, and recursion has a limit), `float` of a string, and `json.loads`. */
  datatype Python = Python(
    show: Value -> Option<string>,
    toInt: Value -> Conversion,
    toFloat: string -> Option<real>,
    loads: string -> Loaded)

  function Show(python: Python, v: Value): Option<string> {
    if v.Str? then Some(v.s) else python.show(v)
  }

  function IntOf(python: Python, v: Value): Conversion {
    match v
    case Int(i) => Whole(i)
    case Bool(b) => Whole(if b then 1 else 0)
    case _ => python.toInt(v)
  }

  /** What the planner reads from the settings; `cost` is the price lookup for the tokens of one exchange. */
  datatype Settings = Settings(
    llmEnabled: bool, gatewayConfigured: bool, agentAsTool: bool, python: Python, cost: (int, int) -> Option<Trouble>)

  const THOUGHT_MAX_CHARS := 1024
  const REASON_MAX_CHARS := 512
  const POLICY_SEARCH := "policy_search"

  function Clip(s: string, n: nat): string {
    if |s| <= n then s else s[..n]
  }

  function Truthy(v: Value): bool {
    match v
    case Null => false
    case Bool(b) => b
    case Int(i) => i != 0
    case Real(r) => r != 0.0
    case Str(s) => s != ""
    case List(items) => items != []
    case Dict(entries) => entries != map[]
  }

  function GetOr(m: map<string, Value>, key: string, otherwise: Value): Value {
    if key in m then m[key] else otherwise
  }

  function Get(m: map<string, Value>, key: string): Value {
    GetOr(m, key, Null)
  }

  // ----- the exchange with the model gateway

  /** `Unsent`: building the prompt, the client or the span raised, outside of the `try`. `NoBody`: the request, the
      status check or reading the body as JSON raised. */
  datatype Exchange = Unsent(fault: Fault) | NoBody(trouble: Trouble) | Body(payload: Value)

  datatype Access = Got(value: Value) | Lost(exceptionType: string)

  /** `v[key]` for a string key. */
  function Item(v: Value, key: string): Access {
    if !v.Dict? then Lost("TypeError") else if key in v.entries then Got(v.entries[key]) else Lost("KeyError")
  }

  /** `v[0]`. */
  function First(v: Value): Access {
    match v
    case List(items) => if items == [] then Lost("IndexError") else Got(items[0])
    case Str(s) => if s == "" then Lost("IndexError") else Got(Str(s[..1]))
    case Dict(_) => Lost("KeyError")
    case _ => Lost("TypeError")
  }

  function Then(a: Access, next: Value -> Access): Access {
    if a.Got? then next(a.value) else a
  }

  /** `payload["choices"][0]["message"]["content"]`. */
  function ContentOf(payload: Value): Access {
    Then(Then(Then(Item(payload, "choices"), First), v => Item(v, "message")), v => Item(v, "content"))
  }

  /** The token counts of a usage object, or the trouble with the first that cannot be read. */
  function UsageTrouble(settings: Settings, usage: map<string, Value>): Option<Trouble> {
    match IntOf(settings.python, GetOr(usage, "prompt_tokens", Int(0)))
    case Fails(t) => Some(t)
    case Whole(prompt) =>
      match IntOf(settings.python, GetOr(usage, "completion_tokens", Int(0)))
      case Fails(t) => Some(t)
      case Whole(completion) =>
        match IntOf(settings.python, GetOr(usage, "total_tokens", Int(prompt + completion)))
        case Fails(t) => Some(t)
        case Whole(_) => settings.cost(prompt, completion)
  }

  /** Recording the usage: nothing to do if it is falsy, and no `get` if it is truthy but no object. */
  function RecordingTrouble(settings: Settings, usage: Value): Option<Trouble> {
    if !Truthy(usage) then None
    else if usage.Dict? then UsageTrouble(settings, usage.entries)
    else Some(Trouble("AttributeError", false))
  }

  /** Without a fence of backticks and a leading language tag. */
  function Unfenced(content: string): string {
    var text := Strip(content);
    if "```" <= text then
      var inner := Strip(StripAll(text, '`'));
      if "json" <= Lower(inner) then Strip(inner[4..]) else inner
    else text
  }

  /** What the planner makes of the exchange; `raw` is the top-level JSON object. */
  datatype Reply =
    | CallFailed(exceptionType: string)
    | NotAnObject
    | Parsed(raw: map<string, Value>)
    | Broken(exceptionType: string)

  function After(t: Trouble): Reply {
    if t.caught then CallFailed(t.exceptionType) else Broken(t.exceptionType)
  }

  /** `_parse_llm_payload`. */
  function ParsePayload(python: Python, content: string): Reply {
    match python.loads(Unfenced(content))
    case Malformed => NotAnObject
    case Broke(name) => Broken(name)
    case Loaded(v) => if v.Dict? then Parsed(v.entries) else NotAnObject
  }

  function Receive(settings: Settings, exchange: Exchange): Reply {
    match exchange
    case Unsent(fault) => Broken(fault.exceptionType)
    case NoBody(t) => After(t)
    case Body(payload) =>
      match ContentOf(payload)
      case Lost(name) => CallFailed(name)
      case Got(v) =>
        var content, usage := Show(settings.python, v), RecordingTrouble(settings, Get(payload.entries, "usage"));
        if content.None? then Broken("RecursionError")
        else if usage.Some? then After(usage.value)
        else ParsePayload(settings.python, content.value)
  }

  // ----- the verdict

  datatype Plan = Verdict(response: PlanResponse) | Raises(exceptionType: string)

  function HardcodedFallback(observations: seq<Value>, reason: string): PlanResponse {
    var thought := Clip("[fallback] " + reason, REASON_MAX_CHARS);
    if observations == [] then PlanResponse(CallTool, Some(POLICY_SEARCH), map[], thought, true)
    else PlanResponse(Finalize, None, map[], thought, true)
  }

  datatype Checked = Valid(response: PlanResponse) | Invalid | Uncheckable(exceptionType: string)

  /** A Python set can only be asked about hashable values: lists and dicts raise. */
  predicate Hashable(v: Value) {
    !v.List? && !v.Dict?
  }

  function ThoughtOf(python: Python, raw: map<string, Value>): Option<string> {
    if Truthy(Get(raw, "thought")) then Show(python, Get(raw, "thought")) else Some("")
  }

  function ValidateAndNormalize(raw: map<string, Value>, available: set<string>, python: Python): Checked {
    var action, shown := Get(raw, "action"), ThoughtOf(python, raw);
    if !Hashable(action) then Uncheckable("TypeError")
    else if action !in {Str("call_tool"), Str("finalize")} then Invalid
    else if shown.None? then Uncheckable("RecursionError")
    else
      var thought := Clip(shown.value, THOUGHT_MAX_CHARS);
      if action == Str("finalize") then Valid(PlanResponse(Finalize, None, map[], thought, false))
      else
        match Get(raw, "tool")
        case Str(tool) =>
          if tool !in available then Invalid
          else
            var args := Get(raw, "tool_args");
            Valid(PlanResponse(CallTool, Some(tool), if args.Dict? then args.entries else map[], thought, false))
        case _ => Invalid
  }

  function PlanNextAction(
    settings: Settings, exchange: Exchange, observations: seq<Value>, available: set<string>): Plan
  {
    if !settings.llmEnabled then Verdict(HardcodedFallback(observations, "agent_react_llm_enabled is False"))
    else if !settings.gatewayConfigured then
      Verdict(HardcodedFallback(observations, "planner requires an openai-compatible LLM gateway"))
    else
      match Receive(settings, exchange)
      case Broken(name) => Raises(name)
      case CallFailed(name) => Verdict(HardcodedFallback(observations, "LLM call failed: " + name))
      case NotAnObject => Verdict(HardcodedFallback(observations, "LLM returned non-JSON payload"))
      case Parsed(raw) =>
        match ValidateAndNormalize(raw, available, settings.python)
        case Uncheckable(name) => Raises(name)
        case Invalid => Verdict(HardcodedFallback(observations, "LLM verdict failed schema validation"))
        case Valid(response) => Verdict(response)
  }

  /** The allow-list holds: a tool the planner picks is in the catalog it was shown, or it is the fallback's
      `policy_search`, which is picked only before the first observation. */
  lemma PlannedToolIsAllowed(settings: Settings, exchange: Exchange, observations: seq<Value>, available: set<string>)
    ensures var plan := PlanNextAction(settings, exchange, observations, available);
            plan.Verdict? && plan.response.action == CallTool ==>
              plan.response.tool.Some? &&
              if plan.response.fallbackUsed then plan.response.tool.value == POLICY_SEARCH && observations == []
              else plan.response.tool.value in available
  {}

  /** The model was asked and answered with an object. */
  predicate ModelAnswered(settings: Settings, exchange: Exchange) {
    settings.llmEnabled && settings.gatewayConfigured && Receive(settings, exchange).Parsed?
  }

  /** The object names `finalize` or a tool of the catalog. */
  ghost predicate Usable(raw: map<string, Value>, available: set<string>) {
    Get(raw, "action") == Str("finalize") ||
    (Get(raw, "action") == Str("call_tool") && exists tool :: tool in available && Get(raw, "tool") == Str(tool))
  }

  lemma ValidIsUsable(raw: map<string, Value>, available: set<string>, python: Python)
    ensures var checked := ValidateAndNormalize(raw, available, python);
            && (checked.Valid? ==> Usable(raw, available) && !checked.response.fallbackUsed)
            && (checked.Invalid? ==> !Usable(raw, available))
  {
    var tool := Get(raw, "tool");
    if tool.Str? && tool.s in available {
      assert exists t :: t in available && tool == Str(t);
    }
  }

  /** A verdict is the model's own exactly when the model answered with an object that names `finalize` or a tool
      of the catalog; otherwise it is the fallback's, which finalizes exactly if something was observed. */
  lemma FallbackExactlyWhenUnusable(
    settings: Settings, exchange: Exchange, observations: seq<Value>, available: set<string>)
    ensures var plan := PlanNextAction(settings, exchange, observations, available);
            plan.Verdict? ==>
              && (plan.response.fallbackUsed <==>
                    !(ModelAnswered(settings, exchange) && Usable(Receive(settings, exchange).raw, available)))
              && (plan.response.fallbackUsed ==> (plan.response.action == Finalize <==> observations != []))
  {
    if ModelAnswered(settings, exchange) {
      ValidIsUsable(Receive(settings, exchange).raw, available, settings.python);
    }
  }

  // ----- when the planner raises

  /** The usage is truthy and either no object, or one whose first trouble is of a type that is not caught. */
  ghost predicate UsageBreaks(settings: Settings, usage: Value) {
    Truthy(usage) &&
    (usage.Dict? ==> UsageTrouble(settings, usage.entries).Some? && !UsageTrouble(settings, usage.entries).value.caught)
  }

  ghost predicate UsageIsRecorded(settings: Settings, usage: Value) {
    Truthy(usage) ==> usage.Dict? && UsageTrouble(settings, usage.entries).None?
  }

  /** A JSON object makes the check raise: its action cannot be hashed, or is a known one and its thought
      cannot be printed. */
  ghost predicate ObjectBreaks(python: Python, raw: map<string, Value>) {
    !Hashable(Get(raw, "action")) ||
    (Get(raw, "action") in {Str("call_tool"), Str("finalize")} && ThoughtOf(python, raw).None?)
  }

  /** A text makes the planner raise: `json.loads` raises something else than a JSONDecodeError, or reads such an
      object out of it. */
  ghost predicate TextBreaks(python: Python, content: string) {
    var loaded := python.loads(Unfenced(content));
    loaded.Broke? || (loaded.Loaded? && loaded.value.Dict? && ObjectBreaks(python, loaded.value.entries))
  }

  /** An exchange makes the planner raise. */
  ghost predicate ExchangeBreaks(settings: Settings, exchange: Exchange) {
    match exchange
    case Unsent(_) => true
    case NoBody(t) => !t.caught
    case Body(payload) =>
      ContentOf(payload).Got? &&
      var content, usage := Show(settings.python, ContentOf(payload).value), Get(payload.entries, "usage");
      content.None? || UsageBreaks(settings, usage) ||
      (UsageIsRecorded(settings, usage) && TextBreaks(settings.python, content.value))
  }

  /** The planner is documented to fall back on any HTTP, parse or schema error. It raises exactly when the model is
      asked and the exchange breaks it: before the request, in it with an exception of a type that is not caught,
      by a `usage` that is no object or has a count that breaks `int`, by a text that breaks `json.loads`, or by
      an object whose action is a list or an object. */
  lemma PlannerRaisesExactlyWhen(
    settings: Settings, exchange: Exchange, observations: seq<Value>, available: set<string>)
    ensures PlanNextAction(settings, exchange, observations, available).Raises? <==>
            settings.llmEnabled && settings.gatewayConfigured && ExchangeBreaks(settings, exchange)
  {
    if exchange.Body? && ContentOf(exchange.payload).Got? {
      ContentNeedsObject(exchange.payload);
    }
  }

  lemma ContentNeedsObject(payload: Value)
    requires ContentOf(payload).Got?
    ensures payload.Dict?
  {}

  /** The promise kept: an exchange that was sent, failed in a caught way or brought a body whose usage is absent or
      an object of whole numbers that can be priced, with a text that can be read and an action that is no list
      and no object. */
  lemma OrderlyExchangesNeverRaise(
    settings: Settings, exchange: Exchange, observations: seq<Value>, available: set<string>)
    requires !exchange.Unsent? && (exchange.NoBody? ==> exchange.trouble.caught)
    requires forall v :: settings.python.show(v).Some?
    requires forall text :: !settings.python.loads(text).Broke?
    requires forall text, v :: settings.python.loads(text) == Loaded(v) && v.Dict? ==>
             Hashable(Get(v.entries, "action"))
    requires exchange.Body? && exchange.payload.Dict? ==>
               var usage := Get(exchange.payload.entries, "usage");
               Truthy(usage) ==> usage.Dict? && forall key :: key in usage.entries ==> usage.entries[key].Int?
    requires forall prompt, completion :: settings.cost(prompt, completion).None?
    ensures PlanNextAction(settings, exchange, observations, available).Verdict?
  {
    PlannerRaisesExactlyWhen(settings, exchange, observations, available);
    if exchange.Body? && ContentOf(exchange.payload).Got? {
      ContentNeedsObject(exchange.payload);
    }
  }

  // ----- inputs at which the promise fails

  function BodyWith(content: string, usage: Value): Exchange {
    Body(Dict(map["choices" := List([Dict(map["message" := Dict(map["content" := Str(content)])])]), "usage" := usage]))
  }

  lemma ContentOfBody(content: string, usage: Value)
    ensures ContentOf(BodyWith(content, usage).payload) == Got(Str(content))
  {}

  /** A usage that is a list, with a perfectly good text. */
  lemma ListUsageRaises(settings: Settings, content: string, observations: seq<Value>, available: set<string>)
    requires settings.llmEnabled && settings.gatewayConfigured
    ensures PlanNextAction(settings, BodyWith(content, List([Int(1)])), observations, available) ==
            Raises("AttributeError")
  {
    ContentOfBody(content, List([Int(1)]));
  }

  /** A token count at which `int` raises an OverflowError, as it does for an infinite one. */
  lemma OverflowingCountRaises(
    settings: Settings, content: string, count: Value, observations: seq<Value>, available: set<string>)
    requires settings.llmEnabled && settings.gatewayConfigured
    requires IntOf(settings.python, count) == Fails(Trouble("OverflowError", false))
    ensures PlanNextAction(settings, BodyWith(content, Dict(map["prompt_tokens" := count])), observations, available) ==
            Raises("OverflowError")
  {
    ContentOfBody(content, Dict(map["prompt_tokens" := count]));
    assert "prompt_tokens" in map["prompt_tokens" := count];
  }

  /** A text too deeply nested for `json.loads`. */
  lemma DeepTextRaises(settings: Settings, content: string, observations: seq<Value>, available: set<string>)
    requires settings.llmEnabled && settings.gatewayConfigured
    requires settings.python.loads(Unfenced(content)) == Broke("RecursionError")
    ensures PlanNextAction(settings, BodyWith(content, Null), observations, available) == Raises("RecursionError")
  {
    ContentOfBody(content, Null);
  }

  /** An action that is a list. */
  lemma ListActionRaises(settings: Settings, content: string, observations: seq<Value>, available: set<string>)
    requires settings.llmEnabled && settings.gatewayConfigured
    requires settings.python.loads(Unfenced(content)) == Loaded(Dict(map["action" := List([])]))
    ensures PlanNextAction(settings, BodyWith(content, Null), observations, available) == Raises("TypeError")
  {
    ContentOfBody(content, Null);
  }
}
