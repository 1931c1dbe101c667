/** A run of the policy graph that spends its budget and is reported "completed". */
module EagerPlanner {
  import opened Values
  import opened GraphEngine
  import opened ReactPlanner
  import opened PolicyGraph
  import opened PolicyRuns
  import opened Text
  import ToolRunner

  const EAGER := map["action" := Str("call_tool"), "tool" := Str(POLICY_SEARCH)]

  /** The text of that object as a model may write it. */
  const EAGER_TEXT := "{" + "\"action\": \"call_tool\", \"tool\": \"policy_search\"" + "}"

  /** `json.loads` reads that text as that object. */
  ghost predicate ReadsEager(python: Python) {
    python.loads(EAGER_TEXT) == Loaded(Dict(EAGER))
  }

  /** A model that answers every question with a call of `policy_search`, which finds nothing. */
  function EagerWorld(python: Python): World {
    World(
      Settings(true, true, false, python, (prompt: int, completion: int) => None),
      (step: nat) => {POLICY_SEARCH},
      (step: nat) => BodyWith(EAGER_TEXT, Null),
      (step: nat, tool: string) => ToolRunner.Result(ToolRunner.Completed, 1, map[], None))
  }

  lemma OneRegistered(name: string)
    ensures Registered([name], {name}) == [name]
  {
    assert [name][..0] == [];
  }

  lemma EagerCatalog(python: Python, step: nat)
    ensures POLICY_SEARCH in Available(EagerWorld(python), step)
  {
    OneRegistered(POLICY_SEARCH);
  }

  /** A text in braces is read as it is. */
  lemma ObjectText(settings: Settings, text: string, inner: string)
    requires text == "{" + inner + "}" && settings.python.loads(text) == Loaded(Dict(EAGER))
    ensures Receive(settings, BodyWith(text, Null)) == Parsed(EAGER)
  {
    assert text[0] == '{' && text[|text| - 1] == '}';
    StripOfTrimmed(text);
    ContentOfBody(text, Null);
  }

  lemma EagerReply(python: Python, step: nat)
    requires ReadsEager(python)
    ensures Receive(EagerWorld(python).settings, EagerWorld(python).exchanges(step)) == Parsed(EAGER)
  {
    var inner := "\"action\": \"call_tool\", \"tool\": \"policy_search\"";
    ObjectText(EagerWorld(python).settings, EAGER_TEXT, inner);
  }

  lemma EagerPlan(python: Python, step: nat, observations: seq<Value>)
    requires ReadsEager(python)
    ensures var w := EagerWorld(python);
            var plan := PlanNextAction(w.settings, w.exchanges(step), observations, Available(w, step));
            plan.Verdict? && plan.response.action == CallTool && plan.response.tool == Some(POLICY_SEARCH)
  {
    EagerReply(python, step);
    EagerCatalog(python, step);
  }

  lemma EagerNeverSettles(python: Python)
    requires ReadsEager(python)
    ensures NeverSettles(EagerWorld(python))
  {
    var w := EagerWorld(python);
    forall step, s | Readable(s)
      ensures PlanAt(w, step, s).Verdict? && NextOf(PlanAt(w, step, s).response) == ACT
    {
      EagerPlan(python, step, Observations(s));
    }
  }

  /** One such run. */
  lemma EagerRunIsReportedCompleted(
    python: Python, tenantId: string, customerId: string, question: string, isChinese: bool)
    requires ReadsEager(python)
    ensures var r := RunOf(BuildPolicyGraph(EagerWorld(python)),
                           InitialState(tenantId, customerId, question, isChinese), MAX_REACT_STEPS);
            r.endReason == MAX_STEPS && RunResultToExecution(python, r, 0.0).status == "completed"
  {
    EagerNeverSettles(python);
    UnsettledIsReportedCompleted(EagerWorld(python), tenantId, customerId, question, isChinese);
  }
}
