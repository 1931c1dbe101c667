# Verified model of the agent runtime

This project models, in Dafny, the agent runtime of a customer-service platform and the small algorithms
around it, and proves what the runtime says of itself. The runtime answers questions with agents: a graph
engine runs nodes on a state, a ReAct loop plans and calls tools, a supervisor splits a policy question by
domain and answers the parts one after another or in parallel, a runner retries tools behind a circuit
breaker, agents delegate to other agents under a depth counter, and runs are stored, reviewed by people and
resumed.

## What is here

| file | what it models |
|---|---|
| `GraphEngine.dfy`, `EngineRuns.dfy`, `ScratchpadMerge.dfy` | the step-bounded engine for arbitrary nodes, what holds of every run, and what merging a scratchpad does |
| `ReactPlanner.dfy`, `PolicyGraph.dfy`, `PolicyRuns.dfy`, `EagerPlanner.dfy` | the planner from the gateway's answer on, the plan/act/observe/finalize graph and its runs |
| `ToolRunner.dfy`, `BreakerHistory.dfy`, `ToolGateway.dfy` | retries, backoff, the breaker, histories of calls, and the guarded tool |
| `AgentAsTool.dfy` | delegation between agents over arbitrary call trees |
| `PolicyProfiles.dfy`, `PolicySupervisor.dfy`, `MixedExecution.dfy`, `CoverageLaws.dfy`, `Citations.dfy`, `SupervisorRuns.dfy`, `SupervisorAgent.dfy` | the policy supervisor, from its first event to the result it hands over |
| `RunLifecycle.dfy`, `LifecycleHistory.dfy`, `LifecycleInterleaved.dfy`, `LifecycleExhibits.dfy` | runs, events, cases and threads under create, ingest and resume requests, one after another and with commits in between, and requests that go wrong |
| `AgentTimelines.dfy`, `AgentHistories.dfy`, `AgentInterleavings.dfy` | the timelines of the agents, and histories and interleavings whose runs come from them |
| `CsvExport.dfy`, `Similarity.dfy`, `MemoryRecall.dfy`, `InMemoryCache.dfy`, `ChatHistory.dfy`, `Percentile.dfy`, `Usage.dfy` | the satellites |
| `Values.dfy`, `Text.dfy` | JSON-like values, sequences, strings and rounding as Python has them |

Nodes, planners' replies, tools and delegated agents are arbitrary functions; whatever the world outside may
answer differently from step to step gets the number of the step (or the place in the call tree) as an
argument. The theorems therefore hold for every graph, every model reply and every tool. Clocks are
non-decreasing parameters, exceptions are values, tables are maps and sequences, and a commit is one step.
Code that works by assignment is a class or a method with a loop, proved against a function or a predicate,
and the theorems are about that function or predicate.

## Where the code does not do what is said of it

Each of these is stated for all inputs, with the exact condition under which the promise does hold, and with an
input at which it does not. The requests in `LifecycleExhibits` are for any run that an agent reports for review, as
the anomaly agent does (`AgentInterleavings.AnomalyWaits`).

- The engine's docstring puts COMPLETED before PAUSED (`engine.py:229-233`); the loop looks at `paused_reason`
  first (`EngineRuns.PauseBeatsCompletion`; `EngineRuns.HoldingRunIsPaused` is a run that names no successor and
  pauses).
- The scratchpad is documented as deep-merged (`engine.py:143-144`) and is merged key by key. The two agree exactly
  if no object that is written over another loses a path of it (`ScratchpadMerge.DeltaMergesDeeplyExactlyWhen`,
  `ScratchpadMerge.NestedKeyIsLost`).
- The tool runner is documented to never raise (`tool_runner.py:176`). It raises exactly when a call that passes
  the breaker breaks the validator, or is valid and has no attempt, or reaches an invocation that is interrupted,
  returns something that is no model, returns None first, raises an error that cannot be printed, or raises before a
  pause that raises (`ToolRunner.RaisesExactlyWhen`, `ToolRunner.NegativeBaseRaises`, `ToolRunner.PlainDictRaises`).
- The planner is documented to fall back on every HTTP, parse and schema error (`react_planner.py:16-17`). It
  raises exactly when the exchange with the model breaks it in one of the ways that
  `ReactPlanner.PlannerRaisesExactlyWhen` lists, for example by a `usage` that is no object
  (`ReactPlanner.ListUsageRaises`, `OverflowingCountRaises`, `DeepTextRaises`, `ListActionRaises`).
- With a threshold of zero or less a policy run that spent its budget is reported "completed"
  (`PolicyRuns.ReportedStatus`); with a threshold of zero that is every run of a planner that never finalizes
  (`PolicyRuns.UnsettledIsReportedCompleted`, `EagerPlanner.EagerRunIsReportedCompleted`).
- The reducer of the parallel reports is documented to be commutative (`policy_supervisor.py:42-43`). It is
  exactly when overlapping entries agree (`MixedExecution.MergeCommutesExactlyWhen`,
  `MixedExecution.MergeOrderMatters`); the result of the parallel mode does not depend on it
  (`MixedExecution.SerialEqualsParallel`).
- The rounded coverage ratio reads 1 exactly if at most one required dimension in 20000 is missing
  (`CoverageLaws.RatioIsOneExactlyWhen`, `CoverageLaws.RatioHidesOne`). That is out of reach of the built-in
  profiles, alone (`CoverageLaws.BuiltInRatio`) and together (`SupervisorRuns.RoutedRatioTells`): they require at
  most 15 dimensions, and the ratio reads 1 exactly if none is missing.
- A resumed run is meant to close its case (`agents.py:422`). Exactly those cases stay open at the decision that
  carry the run's key in another tenant, or name the run in their payload only while a case of the run's tenant
  carries the key (`LifecycleHistory.CasesAfterDecision`, `LifecycleExhibits.PostedCaseStaysOpen`).
- A create request commits three times, and a decision may come in between. In its own tenant a decided run has an
  open case exactly if one was filed after the decision, by the second commit of its create request or by somebody
  who posted one (`LifecycleInterleaved.OpenCaseAfterDecisionExactlyWhen`, `LifecycleExhibits.CaseIsFiledTooLate`).
- The answer that a reviewer edits and the resolution are kept (`agents.py:450-461`) exactly as long as the third
  commit of the run's create request does not follow; it writes the agent's output over them
  (`LifecycleInterleaved.ResolutionSurvivesExactlyWhen`, `LifecycleExhibits.EditIsLost`). The status stays decided,
  and no run is decided twice (`AgentInterleavings.NoAgentRunIsDecidedTwice`).
- A create request that stops between its first and second commit leaves a run in review that has no case
  (`LifecycleHistory.CreatedWithoutCaseExactlyWhen`, `LifecycleExhibits.StoppedCreateLeavesNoCase`).
- A chat turn is documented as a user row *immediately* followed by an assistant row (`chat_history.py:15-16`).
  The loop lets blank rows and rows of other roles stand between (`ChatHistory.PairsExactlyTheExchanges`,
  `ChatHistory.AnswerNeedNotFollowImmediately`).
- The number that `clear_prefix` returns depends on which expired entries a `get` has already met
  (`InMemoryCache.ClearCountsLiveExactlyWhen`, `InMemoryCache.GetChangesCount`).
- A CSV table without rows prints like a table with one row without cells (`CsvExport.EmptyTablesCollide`);
  apart from such tables printing is invertible (`CsvExport.RoundTripExactlyWhen`). That is out of reach of the
  export, which always prints a header of 15 cells (`CsvExport.ExportRoundTrip`).

## Model

| member | source | states |
|---|---|---|
| GraphEngine.ApplyDeltaInOrder | backend/app/services/agents/engine.py:388-424 | the entry-by-entry loop has the effect of one order-free merge, or the fault of the first bad entry and no effect at all |
| GraphEngine.DeltaOrderIrrelevant | backend/app/services/agents/engine.py:406-422 | deltas with the same entries in another order succeed together and give the same state |
| GraphEngine.DeltasCompose | backend/app/services/agents/engine.py:388-424 | for two well-formed deltas there is one delta whose application equals applying both in turn |
| GraphEngine.Run | backend/app/services/agents/engine.py:221-377 | the engine's loop, with its event log, step count, end reason and error, computes the replay of the trace that is defined by recursion on the remaining budget |
| EngineRuns.RunCharacterised | backend/app/services/agents/engine.py:221-377 | a list of visits with an ending is the trace of the run if and only if each visit is what the graph does there, visits are chained by successor and state, and the ending follows the rules: the loop computes the one run there is |
| EngineRuns.RunShape | backend/app/services/agents/engine.py:235-377 | every run stays within max(max_steps, 0) steps, its events are numbered 0..n-1, the type of the last one determines the end reason, and there is an error message exactly for ERROR |
| EngineRuns.StartsCountSteps | backend/app/services/agents/engine.py:278-286 | besides the NODE_START events that nodes emit themselves there is exactly one per step |
| EngineRuns.BlockInLog | backend/app/services/agents/engine.py:278-342 | each visit owns one contiguous stretch of the log that opens with its NODE_START, closes with its NODE_END or NODE_ERROR and holds exactly the events it emitted in between |
| EngineRuns.FinalState | backend/app/services/agents/engine.py:288-330 | the final state is the initial one with the deltas of the successful nodes folded in, one per visit except a failed last one: a node that raised or returned a bad delta leaves no trace |
| EngineRuns.HistoriesOnlyGrow | backend/app/services/agents/engine.py:330-331 | messages, tool calls and memory end as what they were followed by the contributions of the successful nodes, in order |
| EngineRuns.PauseBeatsCompletion | backend/app/services/agents/engine.py:344-377 | a run that took a step is PAUSED exactly if its last node succeeded and left a paused reason, whether or not it named a successor; COMPLETED exactly if it left none and named no successor |
| EngineRuns.HoldingRunIsPaused | backend/app/services/agents/engine.py:344-361 | a one-node graph that pauses and names no successor ends PAUSED, for every positive budget |
| EngineRuns.LargerBudgetOnlyExtends | backend/app/services/agents/engine.py:241-257 | a larger max_steps keeps everything that happened, and changes nothing unless the run ended by MAX_STEPS |
| EngineRuns.InvariantAtEveryVisit | backend/app/services/agents/engine.py:240-361 | a property that each step of a graph hands on holds at every visit of every run |
| EngineRuns.KindNotInRun | backend/app/services/agents/engine.py:317-328 | the log holds no event of a kind that is neither the engine's own nor emitted by a node |
| ScratchpadMerge.DeepMergeIsNewExactlyWhen | backend/app/services/agents/engine.py:143-144 | merging deeply into a value gives back the new value exactly if it keeps every path of the old one |
| ScratchpadMerge.DeltaMergesDeeplyExactlyWhen | backend/app/services/agents/engine.py:406-422 | an applied delta leaves the scratchpad as documented exactly if no object it writes over another loses a path of it |
| ScratchpadMerge.NestedKeyIsLost | backend/app/services/agents/engine.py:406-412 | a delta that sets one key of a nested object drops the other, where the documented merge keeps it |
| ReactPlanner.PlannedToolIsAllowed | backend/app/services/agents/react_planner.py:172-202 | for every exchange with the model, a planned tool is in the catalog shown to it, or is the fallback's policy_search before the first observation |
| ReactPlanner.FallbackExactlyWhenUnusable | backend/app/services/agents/react_planner.py:205-326 | a verdict is the fallback's exactly when the model was not asked, the exchange did not bring a JSON object, or the object named neither finalize nor a tool of the catalog; it finalizes exactly if something was observed |
| ReactPlanner.PlannerRaisesExactlyWhen | backend/app/services/agents/react_planner.py:158-323 | the planner raises exactly when the model is asked and the exchange breaks it: before the request, with an exception that is not caught, by a usage that is no object or whose counts or price raise one, by a text that breaks json.loads, by an action that is a list or an object, or by a value too deep to print |
| ReactPlanner.OrderlyExchangesNeverRaise | backend/app/services/agents/react_planner.py:261-323 | an exchange that fails in a caught way, or brings a readable text with a hashable action and a usage of whole numbers or none, always gives a verdict |
| ReactPlanner.ListUsageRaises | backend/app/services/agents/react_planner.py:280-284 | a usage that is a list raises AttributeError, whatever the text is |
| ReactPlanner.OverflowingCountRaises | backend/app/services/agents/react_planner.py:280-283 | a token count at which int overflows raises OverflowError |
| ReactPlanner.DeepTextRaises | backend/app/services/agents/react_planner.py:158-169 | a text too deeply nested for json.loads raises RecursionError |
| ReactPlanner.ListActionRaises | backend/app/services/agents/react_planner.py:177-179 | an action that is a list raises TypeError |
| PolicyGraph.AllowedToolCatalogInOrder | backend/app/services/agents/policy_graph.py:80-102 | the loop builds the registered part of the allow-list, in its order |
| PolicyRuns.NodeOrder | backend/app/services/agents/policy_graph.py:105-304 | for every planner the nodes that run are a prefix of (plan act observe)* plan finalize |
| PolicyRuns.ToolCallsAreBounded | backend/app/services/agents/policy_graph.py:59-284 | in every run, also one that fails, observations <= tool calls <= observations + 1, one call per three steps, and at most 3 calls with the fixed budget |
| PolicyRuns.ToolsAreAllowed | backend/app/services/agents/policy_graph.py:80-226 | every tool that is run was in the catalog one step earlier or is policy_search |
| PolicyRuns.CompletedExactlyWhen | backend/app/services/agents/policy_graph.py:105-284 | a run never pauses; unless a node raises it is COMPLETED exactly if the planner finalizes in a turn that leaves room for the final node, else it ends by MAX_STEPS |
| PolicyRuns.CompletedByThirdTurn | backend/app/services/agents/policy_graph.py:59-284 | with the budget of 8 steps: COMPLETED exactly if the planner finalizes by its third turn |
| PolicyRuns.HardcodedPlannerRun | backend/app/services/agents/react_planner.py:96-115 | with the hard-coded planner a run completes in exactly 5 steps with exactly one call, to policy_search, or ends in ERROR, and which of the two is decided by the search alone, by what float makes of its confidence included |
| PolicyRuns.ReportedStatus | backend/app/services/agents/policy_graph.py:366-389 | "failed" exactly on ERROR, "completed" exactly on no error and enough confidence, review flag exactly on too little; with a positive threshold only a COMPLETED run is reported completed, and a MAX_STEPS run is exactly if the threshold is not positive |
| PolicyRuns.UnsettledIsReportedCompleted | backend/app/services/agents/policy_graph.py:366-389 | every planner that calls a tool in each turn spends the budget, and with a threshold of 0 its run is reported completed |
| EagerPlanner.EagerRunIsReportedCompleted | backend/app/services/agents/policy_graph.py:366-389 | a concrete such model, which always answers with a call of policy_search |
| PolicyRuns.NoResumeInLog | backend/app/services/agents/policy_graph.py:183-226 | no run of the policy graph logs a RESUME event |
| PolicyRuns.ExecutePolicyGraph | backend/app/services/agents/policy_graph.py:423-477 | whatever planner and tools do, the result has at most 8 steps, 3 tool calls, events numbered from 0 without RESUME, and the status facts of ReportedStatus |
| ToolRunner.DelaysNeverShrink | backend/app/services/agents/tool_runner.py:86-89 | backoff delays are non-decreasing when the factor is at least 1 |
| ToolRunner.TotalDelayCapped | backend/app/services/agents/tool_runner.py:86-89 | n delays sum to at most n times the cap, and so to at most (attempts - 1) times the cap |
| ToolRunner.GeometricClosedForm | backend/app/services/agents/tool_runner.py:86-89 | uncapped delays sum to base * (factor^n - 1) / (factor - 1) |
| ToolRunner.TotalDelayGeometric | backend/app/services/agents/tool_runner.py:86-89 | the delays sum to at most that, and to exactly that if none reaches the cap |
| ToolRunner.CircuitBreaker.constructor | backend/app/services/agents/tool_runner.py:114-118 | a fresh breaker has no failures and no open circuit |
| ToolRunner.CircuitBreaker.IsOpen | backend/app/services/agents/tool_runner.py:120-132 | refuses exactly an enabled breaker's open tool within its cooldown; a check after the cooldown closes the circuit and clears the count, any other check changes nothing |
| ToolRunner.CircuitBreaker.RecordSuccess | backend/app/services/agents/tool_runner.py:134-137 | clears the tool's count and closes its circuit, and touches no other tool |
| ToolRunner.CircuitBreaker.RecordFailure | backend/app/services/agents/tool_runner.py:139-146 | counts one failure of the tool and opens its circuit from the threshold on; a disabled breaker does nothing |
| ToolRunner.Runner.Invoke | backend/app/services/agents/tool_runner.py:229-249 | the loop ends in the first invocation that returns, is interrupted, raises something that cannot be printed, or whose pause raises, or after all attempts raised, with the last error before that and the capped delays of the pauses it made |
| ToolRunner.Runner.Run | backend/app/services/agents/tool_runner.py:169-289 | the outcome, the breaker afterwards and the pauses for each of: not registered, refused, invalid, validator broken, succeeded, failed, and the six ways in which it raises |
| ToolRunner.CompletesIffAnInvocationSucceeds | backend/app/services/agents/tool_runner.py:229-289 | a call completes exactly if it gets as far as the loop and one of the allowed invocations returns a model after all before it raised and the pauses between were made, and then `attempts` is its number |
| ToolRunner.RaisesExactlyWhen | backend/app/services/agents/tool_runner.py:213-275 | the run raises exactly when the call is registered and not refused and either its validator breaks, or it is valid and attempts <= 0 or some invocation that is reached is interrupted, raises something that cannot be printed, returns no model, returns None first, or raises before a pause that raises |
| ToolRunner.WellBehavedCallsReturn | backend/app/services/agents/tool_runner.py:169-289 | with an attempt, a policy without negative numbers, pauses that only raise for negative delays, a validator that raises nothing else, and a tool that returns a model or raises an Exception, every call is answered |
| ToolRunner.NegativeBaseRaises | backend/app/services/agents/tool_runner.py:229-249 | RetryPolicy(2, -1.0, 2.0, 5.0) and a first invocation that raises: the pause raises, and the second invocation, which would return a model, is not made |
| ToolRunner.PlainDictRaises | backend/app/services/agents/tool_runner.py:263-265 | a tool that returns a dict: its success is recorded, and then the run raises |
| ToolRunner.TotalPauseCapped | backend/app/services/agents/tool_runner.py:248-249 | whatever the outcome, a call pauses fewer than `attempts` times and at most (attempts - 1) times the cap in total |
| BreakerHistory.EveryInterleavingKeepsInvariant | backend/app/services/agents/tool_runner.py:120-146 | after every sequence of the three locked operations on any tools, a circuit is open if and only if the threshold is positive and the failures have reached it |
| BreakerHistory.BoundToFailFails | backend/app/services/agents/tool_runner.py:213-261 | calls with invalid input, or whose invocations all raise and whose pauses are made, only fail, so that the bound of AmortisedProtection holds for them |
| BreakerHistory.AmortisedProtection | backend/app/services/agents/tool_runner.py:120-261 | in every sequential history in which a tool only fails, whatever other tools do, the runs that get past the breaker during a time W number at most threshold * (floor(W / cooldown) + 1), and the tool is invoked at most `attempts` times for each |
| AgentAsTool.CallAgentTool.Invoke | backend/app/services/agents/agent_as_tool.py:164-214 | the depth counter on exit equals that on entry also when the agent raises; reply and dispatches are those of the recursive call tree, and recursion terminates by the levels left |
| AgentAsTool.CallAgentTool.Dispatch | backend/app/services/agents/agent_as_tool.py:217-257 | the dispatched agent restores the counter and produces the tree's end and dispatches for any strategy with finitely many invocations |
| AgentAsTool.RefusedExactlyWhen | backend/app/services/agents/agent_as_tool.py:173-199 | a call dispatches nothing exactly if it is too deep or goes to its caller, and then says so at the next depth; every other call dispatches at the next depth first |
| AgentAsTool.InvocationWithin | backend/app/services/agents/agent_as_tool.py:168-201 | all dispatches under a call run at depths above its own and at most max_depth |
| AgentAsTool.InvocationCost | backend/app/services/agents/agent_as_tool.py:164-214 | one call causes at most Cost(b, levels left) dispatches if no agent makes more than b calls |
| AgentAsTool.CostIsPowerSum | backend/app/services/agents/agent_as_tool.py:164-214 | b calls of that cost are b + b^2 + ... + b^levels |
| AgentAsTool.BoundedDelegation | backend/app/services/agents/agent_as_tool.py:164-214 | an agent at depth 0 causes at most b + b^2 + ... + b^max_depth dispatches, all at depths 1..max_depth, whoever raises |
| PolicyProfiles.HotelRequiredDimensions | backend/app/services/agents/policy_profiles.py:151-161 | no dimension twice, only the profile's own, `room_rate_standard` first, and each other one exactly if its fact was found or its keyword occurs |
| PolicyProfiles.FlightRequiredDimensions | backend/app/services/agents/policy_profiles.py:244-254 | no dimension twice, only the profile's own, `cabin_policy` first, and each other one exactly if its fact was found or its keyword occurs |
| PolicyProfiles.ReimbursementRequiredDimensions | backend/app/services/agents/policy_profiles.py:338-346 | no dimension twice, only the profile's own, `invoice_tax` first, and each other one exactly if its fact was found or its keyword occurs |
| PolicyProfiles.BuildSubquestions | backend/app/services/agents/policy_profiles.py:164-213 | the loop yields the question itself and one subquestion per dimension the profile knows, in order |
| PolicyProfiles.ProfilesAreExact | backend/app/services/agents/policy_profiles.py:151-386 | for every question and whatever the texts say, each built-in profile asks exactly "primary" followed by its duplicate-free required dimensions |
| PolicyProfiles.BareProfileIsExact | backend/app/services/agents/policy_profiles.py:26-44 | so does a profile without functions of its own, which requires nothing |
| PolicyProfiles.LookupFindsItself | backend/app/services/agents/policy_profiles.py:465-466 | with distinct domains a profile is found under its own domain |
| PolicyProfiles.BuiltInProfilesAreDistinct | backend/app/services/agents/policy_profiles.py:389-451 | the built-in profiles have distinct domains, none of them generic or mixed |
| Citations.MergeCitations | backend/app/services/agents/policy_supervisor.py:111-121 | the nested loops over an insertion-ordered dictionary give the concatenation without later duplicates |
| Citations.DedupKeepsFirsts | backend/app/services/agents/policy_supervisor.py:111-121 | what is kept is exactly the first citation of each key, in the order of the input |
| Citations.DedupIdempotent | backend/app/services/agents/policy_supervisor.py:111-121 | merging twice is merging once, and no key is left twice |
| Citations.DedupIsSelfExactlyWhen | backend/app/services/agents/policy_supervisor.py:111-121 | merging leaves a list as it is exactly if no key occurs in it twice |
| Citations.MergingMergedGroups | backend/app/services/agents/policy_supervisor.py:111-121 | merging what was merged group by group equals merging everything at once |
| PolicySupervisor.AppendedNotes | backend/app/services/agents/policy_supervisor.py:88-108 | renumbering changes nothing but the numbers: the notes of a timeline after appending are the old ones followed by the new ones |
| PolicySupervisor.AppendKeepsNumbered | backend/app/services/agents/policy_supervisor.py:88-108 | a timeline numbered 0..n-1 stays so under max-plus-one numbering |
| PolicySupervisor.AskAll | backend/app/services/agents/policy_supervisor.py:442-482 | asking the subquestions one after another appends calls, answers, guardrail decisions and renumbered tool events in order |
| PolicySupervisor.BuildProfileReport | backend/app/services/agents/policy_supervisor.py:418-564 | whatever timeline and guardrail list it starts from, it adds the same work after them: report, calls, guardrail entries and notes |
| MixedExecution.MixedExecute | backend/app/services/agents/policy_supervisor.py:567-679 | the serial loop computes the fold of the reports in planned order, each on the timeline the one before it left |
| MixedExecution.MixedProfileWorker | backend/app/services/agents/policy_supervisor.py:906-939 | a worker writes, under its own domain only, the work of its profile on an empty timeline; nothing for an unknown domain |
| MixedExecution.MergeParallelReports | backend/app/services/agents/policy_supervisor.py:32-49 | the loop writes the entries of the new dictionary over a copy of the old one |
| MixedExecution.MixedReducer | backend/app/services/agents/policy_supervisor.py:942-1060 | folds the bundles in planned order, renumbering their events onto the supervisor's timeline |
| MixedExecution.SerialEqualsParallel | backend/app/services/agents/policy_supervisor.py:942-1060 | for every state, every accumulator and every arrival order that contains each planned domain, reducing the arrived writes equals the serial result in every field, renumbered engine events included |
| MixedExecution.MergeCommutesExactlyWhen | backend/app/services/agents/policy_supervisor.py:42-43 | the reducer commutes on two writes exactly if they agree where they overlap |
| MixedExecution.MergeOrderMatters | backend/app/services/agents/policy_supervisor.py:42-43 | of two different writes for one domain the later one wins |
| MixedExecution.MergeAssociates | backend/app/services/agents/policy_supervisor.py:42-43 | the reducer is associative |
| CoverageLaws.CoverageSplits | backend/app/services/agents/policy_supervisor.py:484-498 | for duplicate-free required dimensions, covered and missing split the required list, both in its order |
| CoverageLaws.RatioIsOneExactlyWhen | backend/app/services/agents/policy_supervisor.py:496-498 | the rounded ratio is 1 exactly if 20000 * missing <= required |
| CoverageLaws.RatioHidesOne | backend/app/services/agents/policy_supervisor.py:496-498 | 19999 of 20000 covered reads 1 |
| CoverageLaws.ReportConservesCoverage | backend/app/services/agents/policy_supervisor.py:484-564 | a report's covered and missing split its required list, the counts add up, the ratio is in [0, 1], and there is an interrupt exactly if something is missing |
| CoverageLaws.BuiltInRatio | backend/app/services/agents/policy_profiles.py:151-386 | for the built-in profiles the rounded ratio is 1 exactly if nothing is missing |
| SupervisorRuns.MixedConservesCoverage | backend/app/services/agents/policy_supervisor.py:594-639 | the domain-prefixed lists of the mixed case split in the same way, its ratio reads 1 exactly if 20000 * missing <= required, and its interrupt exists exactly if some profile has one |
| SupervisorRuns.RoutedRatioTells | backend/app/services/agents/policy_supervisor.py:594-639 | for every question routed to the mixed path over the built-in profiles at most 15 dimensions are required, and the ratio is 1 exactly if none is missing, exactly if there is no interrupt |
| SupervisorRuns.CitationsAgree | backend/app/services/agents/policy_supervisor.py:794-794 | on the mixed path the final result's citations are the state's, and those are the merge over all subresults |
| SupervisorRuns.TimelineStaysNumbered | backend/app/services/agents/policy_supervisor.py:94-108 | a timeline numbered from 0 reaches the end of a mixed run numbered 0..n-1 |
| SupervisorRuns.MixedRoute | backend/app/services/agents/policy_supervisor.py:209-247 | the mixed route is taken exactly if at least two profiles match, and then the fan-out goes to exactly the matching ones |
| SupervisorRuns.ExecuteProfile | backend/app/services/agents/policy_supervisor.py:250-340 | the single-profile nodes add facts, answers and NODE_END to the timeline in order |
| SupervisorRuns.SingleProfileAgreesWithReport | backend/app/services/agents/policy_supervisor.py:343-415 | node by node a single profile gets the coverage, interrupt, guardrail entries and citations of its report; the timelines differ only in the order of PAUSE and NODE_END |
| SupervisorAgent.FinalizeSupervisor | backend/app/services/agents/policy_supervisor.py:787-864 | no citation key twice and exactly the keys of the reports or answers; the timeline with one GRAPH_END behind it, numbered if it was; a review exactly on an interrupt; with answer, confidence and the rest of the final result |
| SupervisorAgent.ExecuteParallel | backend/app/services/agents/policy_supervisor.py:870-1060 | workers' writes merged in whatever order they arrive and reduced give what the serial mode gives |
| SupervisorAgent.Supervise | backend/app/services/agents/policy_supervisor.py:1073-1121 | one run from its bootstrap event over routing and any of the three paths to its result: serial and parallel mode hand over the same |
| SupervisorAgent.SearchGenerically | backend/app/services/agents/policy_supervisor.py:682-726 | one answer, to the question itself; nothing required, missing or interrupted; the events of the call behind the timeline, unchanged but for their numbers, and numbered if it was |
| SupervisorAgent.WorkOnProfile | backend/app/services/agents/policy_supervisor.py:250-415 | the path of a single profile up to its validated coverage |
| SupervisorAgent.ReviewExactlyWhenMissing | backend/app/services/agents/policy_supervisor.py:400-864 | on every path the run asks for a review exactly if a required dimension is missing |
| SupervisorAgent.CitationsAgreeExactlyWhen | backend/app/services/agents/policy_supervisor.py:682-864 | over whole runs the result's citations are the merge over all answers, and those of the state exactly if the path is not generic or the search gave no citation key twice |
| SupervisorAgent.RepeatedCitationIsMerged | backend/app/services/agents/policy_supervisor.py:721-794 | a generic search that gives one citation twice: the state has both, the result one |
| SupervisorAgent.ConfidenceWithin | backend/app/services/agents/policy_supervisor.py:825-831 | answers with confidences in [0, 1] give a final confidence in [0, 1] |
| ToolGateway.GuardedEvents | backend/app/services/agents/tool_gateway.py:24-97 | a guarded call is interrupted exactly if its tool is high-risk or needs approval and has none; its events are then one PAUSE, and else only tool starts and ends |
| RunLifecycle.NextEventSequence | backend/app/api/routes/agents.py:383-398 | one more than the largest number among the run's rows, 0 without rows |
| RunLifecycle.NextIsCount | backend/app/api/routes/agents.py:383-398 | on rows numbered 0..k-1 that number is k |
| RunLifecycle.AgentRunsApi.PersistAgentEvents | backend/app/services/agents/event_sink.py:24-66 | one row per event, in order, with the event's own number |
| RunLifecycle.AgentRunsApi.CreateAgentRun | backend/app/api/routes/agents.py:194-367 | what is committed after the run, the case and the review status, wherever the request stops |
| RunLifecycle.AgentRunsApi.IngestReviewCase | backend/app/api/routes/reviews.py:90-131 | one open case more, keyed to the run that its payload names |
| RunLifecycle.AgentRunsApi.ResumeAgentRun | backend/app/api/routes/agents.py:405-535 | 404, 403, 409 or 422 with nothing committed, or the decided run, its thread, one RESUME row and the closed cases in one commit |
| RunLifecycle.AgentRunsApi.CloseCases | backend/app/api/routes/agents.py:515-519 | closes the linked cases and touches no other |
| LifecycleHistory.EmptyIsSound | backend/app/api/routes/agents.py:302-312 | the empty database, from which histories start, meets the invariant of the event table |
| LifecycleHistory.EventsOverHistory | backend/app/api/routes/agents.py:302-535 | over every history of sequential requests each run's events are numbered exactly 0..k-1 and RESUME occurs at most once, last, and only for a run that has left review |
| LifecycleHistory.NeverBackInReview | backend/app/api/routes/agents.py:440-461 | in every history of sequential requests a run out of review keeps its status and output |
| LifecycleHistory.LeavesReviewByDecision | backend/app/api/routes/agents.py:440-485 | the only way out of review is an accepted decision, and it adds exactly the run's last event |
| LifecycleHistory.SecondDecisionRefused | backend/app/api/routes/agents.py:436-444 | in such a history, after an accepted decision every later one on the run is refused and changes nothing committed |
| LifecycleHistory.CasesAfterDecision | backend/app/api/routes/agents.py:487-519 | exactly which open cases an accepted decision leaves open |
| LifecycleExhibits.PostedCaseStaysOpen | backend/app/api/routes/reviews.py:90-131 | a run of one tenant that an agent reports for review, a case that another tenant posts for it, and the decision: the run's case is resolved, the posted one carries its key and stays open |
| LifecycleHistory.CreatedWithoutCaseExactlyWhen | backend/app/api/routes/agents.py:331-367 | a created run waits for review without a case exactly if it needs review and the request stopped after its first commit |
| LifecycleExhibits.StoppedCreateLeavesNoCase | backend/app/api/routes/agents.py:331-340 | a history in which such a run waits for review and no case exists |
| LifecycleHistory.ReviewableOverHistory | backend/app/api/routes/agents.py:333-535 | while create requests finish, every run in review has an open case in its own tenant at every moment of every history |
| LifecycleInterleaved.UninterruptedIsSequential | backend/app/api/routes/agents.py:194-367 | the three commits without anything in between are the sequential request |
| LifecycleInterleaved.UntouchedUntilMarked | backend/app/api/routes/agents.py:194-367 | a run whose first commit did not say needs_review keeps that status and has no RESUME until the third commit of its create request |
| LifecycleInterleaved.EventsOverInterleavings | backend/app/api/routes/agents.py:194-535 | whatever comes between the commits of create requests, each run's events are numbered 0..k-1 and RESUME occurs at most once, last, and only for a run out of review |
| LifecycleInterleaved.DecidedStaysSettled | backend/app/api/routes/agents.py:351-485 | over every interleaving a decided run never goes back into review |
| LifecycleInterleaved.SecondDecisionIsRefused | backend/app/api/routes/agents.py:436-444 | over every interleaving each later decision on a decided run answers 403 or 409 and commits nothing |
| LifecycleInterleaved.ResolutionSurvivesExactlyWhen | backend/app/api/routes/agents.py:351-461 | a decided run keeps its status, and its output stays what the decision made of it exactly as long as the third commit of its create request does not follow; after that it is the agent's, without resolution and edited answer |
| LifecycleInterleaved.OpenCaseAfterDecisionExactlyWhen | backend/app/api/routes/agents.py:333-519 | over every interleaving a decided run has an open case with its key in its tenant exactly if its create request's second commit or a posted case came after the decision |
| LifecycleInterleaved.ReviewHasItsCase | backend/app/api/routes/agents.py:333-367 | a run in review whose create request has committed twice has an open case in its tenant |
| LifecycleExhibits.EditIsLost | backend/app/api/routes/agents.py:351-461 | an edited answer between second and third commit: the run ends completed with the agent's output, without the edited answer and the resolution |
| LifecycleExhibits.CaseIsFiledTooLate | backend/app/api/routes/agents.py:333-519 | an approval between first and second commit: the run ends decided with an open case in its tenant |
| AgentTimelines.PolicyGraphTimeline | backend/app/services/agents/policy_graph.py:412-414 | the events that every policy run hands over are numbered from 0 and hold no RESUME |
| AgentTimelines.SupervisorTimeline | backend/app/services/agents/policy_supervisor.py:1334-1400 | so are those of every supervisor run, from its bootstrap event over any of the three paths to its GRAPH_END, if the tool reports no RESUME |
| AgentTimelines.GatewayIsQuiet | backend/app/services/agents/tool_gateway.py:24-97 | the guarded tool reports none, whatever the tool behind it does |
| AgentTimelines.SilentGraphTimeline | backend/app/services/agents/anomaly_graph.py:142-215 | so are those of every engine run whose nodes emit no events of their own |
| AgentHistories.EventsOverAgentHistory | backend/app/api/routes/agents.py:302-535 | over every history that starts empty and whose created runs come from the modelled agents, each run's events are numbered 0..k-1 and RESUME occurs at most once, last |
| AgentHistories.ReviewableOverAgentHistory | backend/app/api/routes/agents.py:333-535 | in such a history, while create requests finish, every run in review has an open case in its own tenant |
| AgentInterleavings.EventsOverAgentInterleaving | backend/app/api/routes/agents.py:194-535 | over every interleaving whose created runs come from the modelled agents, each run's events are numbered 0..k-1 and RESUME occurs at most once, last |
| AgentInterleavings.NoAgentRunIsDecidedTwice | backend/app/api/routes/agents.py:194-535 | over every such interleaving no two decisions on one run are both accepted |
| AgentInterleavings.AnomalyWaits | backend/app/services/agents/anomaly_graph.py:267-285 | every result of the anomaly graph for a question without a signal is an agent's, and is of the kind with which the requests above go wrong |
| AgentInterleavings.AgentEditIsLost | backend/app/api/routes/agents.py:351-461 | every run that an agent reports for review can lose an edit in an interleaving of agents' runs |
| AgentInterleavings.AgentCaseIsFiledTooLate | backend/app/api/routes/agents.py:333-519 | and can end decided with an open case in its tenant |
| CsvExport.RoundTripExactlyWhen | frontend/src/utils/evalDetails.ts:6-9 | reading the printed table by the quoted-field grammar of section 2 of RFC 4180 (rules 5 to 7, LF between records) gives it back exactly if it has a row and no row is without cells |
| CsvExport.PrinterIsInjective | frontend/src/utils/evalDetails.ts:63-65 | different such tables print differently |
| CsvExport.EmptyTablesCollide | frontend/src/utils/evalDetails.ts:63-65 | no row at all and one row without cells print the same |
| CsvExport.ExportRoundTrip | frontend/src/utils/evalDetails.ts:25-66 | header and rows of the export can be read back out of it, whatever the cells hold |
| Similarity.CauchySchwarz | backend/app/services/agents/memory.py:143-160 | the square of the dot product is at most the product of the squared norms |
| Similarity.CosineWithin | backend/app/services/agents/memory.py:143-160 | every score is in [-1, 1] |
| Similarity.CosineByLoop | backend/app/services/agents/memory.py:143-160 | the accumulator loop computes the cosine, 0 for unequal lengths or a zero vector |
| Similarity.CosinesAgree | backend/app/services/agents/router.py:307-315 | the router's sum form is the same function |
| Similarity.Classify | backend/app/services/agents/router.py:201-232 | the first exemplar with the highest score, exactly if that score exceeds -1 and reaches the threshold |
| MemoryRecall.Recall | backend/app/services/agents/memory.py:225-268 | the loops and the sort return the records of the best eligible rows, metadata and creation time included |
| MemoryRecall.SortIsFalling | backend/app/services/agents/memory.py:254-254 | sorting keeps every scored row and puts them in falling order |
| MemoryRecall.SortIsStable | backend/app/services/agents/memory.py:254-254 | rows with equal scores keep their order |
| MemoryRecall.RecallReturnsTheBest | backend/app/services/agents/memory.py:239-268 | min(k, eligible) rows in falling order, and no eligible row that is left out beats one that is returned |
| MemoryRecall.ScoredRowsAreOwn | backend/app/services/agents/memory.py:239-253 | scored rows belong to the caller, carry their cosine and reach the minimum |
| MemoryRecall.ForeignRowsDoNotMatter | backend/app/services/agents/memory.py:239-248 | a row of another tenant, user or embedder never changes the result |
| InMemoryCache.Cache.Get | backend/app/core/cache.py:78-85 | the live value or nothing; an expired entry is dropped and nothing else changes |
| InMemoryCache.Cache.Set | backend/app/core/cache.py:87-91 | stores with an expiry only for a positive ttl, or raises and changes nothing |
| InMemoryCache.Cache.Delete | backend/app/core/cache.py:93-94 | removes the key only |
| InMemoryCache.Cache.ClearPrefix | backend/app/core/cache.py:96-100 | removes precisely the stored keys with the prefix and returns their number |
| InMemoryCache.GetRefinesIdeal | backend/app/core/cache.py:69-100 | after every sequence of operations under a clock that never goes back, get answers at every later time what a map with expiry times would that evicts nothing |
| InMemoryCache.ClearCountsLiveExactlyWhen | backend/app/core/cache.py:96-100 | the number returned by clear_prefix counts all live keys, and nothing else exactly if no stored key with the prefix has expired |
| InMemoryCache.GetChangesCount | backend/app/core/cache.py:78-100 | set, expired, cleared: the number is 1, and 0 if a get came in between, while nothing is live either way |
| ChatHistory.LoadRecentTurns | backend/app/services/chat_history.py:55-98 | the loop and its window compute the last max_turns turns of the pairing |
| ChatHistory.TurnsToMessages | backend/app/services/chat_history.py:101-106 | two messages per turn, in order |
| ChatHistory.PairsExactlyTheExchanges | backend/app/services/chat_history.py:78-94 | the turns are exactly the pairs of a non-blank user row and the next non-blank assistant row with no non-blank user or assistant row between, in order and without overlap |
| ChatHistory.AnswerNeedNotFollowImmediately | backend/app/services/chat_history.py:78-94 | a question and an answer with a blank and a system row between them make a turn |
| ChatHistory.TurnsAreClean | backend/app/services/chat_history.py:81-84 | both sides of every turn are trimmed and not blank |
| ChatHistory.ExchangeAddsOneTurn | backend/app/services/chat_history.py:85-94 | appending one exchange appends exactly one turn, whatever was pending |
| ChatHistory.MessagesPairBack | backend/app/services/chat_history.py:101-106 | trimmed non-blank turns written as messages pair up to the same turns |
| ChatHistory.ReloadGivesTheLastTurns | backend/app/services/chat_history.py:55-106 | reloading what was loaded and written out gives the same window |
| ChatHistory.WindowsAreSuffixes | backend/app/services/chat_history.py:96-98 | the window for k has min(k, turns) turns and is a suffix of every larger window |
| Percentile.OrderStatistic | backend/app/api/routes/slo.py:57-57 | place k of the sorted values is at most v exactly if more than k values are at most v |
| Percentile.PercentileWithin | backend/app/api/routes/slo.py:52-64 | for all integers and fractions in [0, 1] the truncated result lies between the two neighbouring order statistics |
| Percentile.PercentileAtPlace | backend/app/api/routes/slo.py:58-64 | at a whole position the result is that order statistic: fraction 0 gives the smallest value, 1 the largest |
| Percentile.OrderDoesNotMatter | backend/app/api/routes/slo.py:52-64 | permuting the values does not change the result |
| Percentile.RaisingRaisesPercentile | backend/app/api/routes/slo.py:52-64 | raising any of the latencies never lowers the result |
| Percentile.PercentileRisesWithFraction | backend/app/api/routes/slo.py:52-64 | the result rises with the fraction, so p50 <= p95 |
| Usage.GetUsage | backend/app/api/routes/usage.py:55-152 | the listing for the asked grouping, in the order in which the database returns the groups, and a summary that equals the totals over the selected rows |
| Usage.GroupsAddUp | backend/app/api/routes/usage.py:117-128 | for distinct keys that cover the rows the totals of the groups add up to the total of the rows |
| Usage.SummaryIgnoresGrouping | backend/app/api/routes/usage.py:146-152 | tokens, requests and nullable cost are the same for model, agent, day and none; the cost is null exactly if every row's is |
| Usage.ColumnSum | backend/app/api/routes/usage.py:45-51 | a nullable sum is null exactly if every value is, and else the sum of those present |
| Usage.ForeignRowsDoNotCount | backend/app/api/routes/usage.py:81-85 | rows of other tenants or outside the window never change the selection |

## Left out

- Timestamps, latencies, request ids and the making of UUIDs: new ids are only taken to be new.
- Floating point: numbers are exact reals, with Python's rounding and truncation written out, and neither infinite nor NaN; `math.sqrt` is any function that gives the exact root. `float` of a string and `int` of a JSON value that is no whole number are arbitrary functions.
- LangGraph's scheduler: only that every planned worker's write has arrived before the reducer runs, in any order.
- The mixed modes take the guarded tool to be a function of its input; without that the two modes could not agree, since they ask at different times.
- Nodes that change nested values of the state they were given: the engine copies a state one level deep, the model's values cannot be changed.
- Outside the tool runner every exception is taken to have a text, and inside it one that has a text to keep it.
- Exceptions outside `Exception` that a node lets through leave the engine; in the engine's runs the model reports them as any other failure of a node.
- Configuration errors of the `Graph` constructor, tracing spans, metrics and the display timeline (`_events_to_timeline_steps`).
- The wording of subquestions and prompts, the answer of the policy graph for want of evidence, and the retrieval trace of the supervisor's result, which repeats what the result holds.
- Thread summaries, checkpoints, tool-call logs and audit rows: written beside the modelled rows, read by none of the modelled code.
- HTTP, request schemas, row-level security, SQL ordering; the tenant guard is an arbitrary predicate.
- Keyword matching and fact extraction are arbitrary functions; stripping and lowering are modelled for ASCII, truncation of thoughts by length.
- A scratchpad entry of an unexpected type is modelled as raising, where Python would in some cases convert it.
- The router's other strategies.
- The nodes of the anomaly and the ticket agent: any graph whose nodes emit no events of their own, as theirs do.
- Copying of the depth variable into threads: a delegated agent is modelled on the caller's thread.
- Concurrency of the breaker beyond its invariant: the amortised bound is for sequential histories, since between a check and its record any number of other calls could pass.
- Two decisions on one run at the same moment: a decision is one step from reading the run to its commit.
- `NoopCache`, `RedisCache`, the cache key helpers, `remember` of the memory store.
- The formatting of the cells of the CSV export, which is taken as given, and the download.
- AgentTimelines.SupervisorTimeline: the tool is taken to report no RESUME; `GatewayIsQuiet` shows it of the guarded tool, for calls in which the runner returns. If it raises, the supervisor gives way to the policy graph, whose timeline is `PolicyGraphTimeline`.
- LifecycleHistory.EventsOverHistory: requests come one after another, and a created run is taken to bring events numbered from 0 without RESUME; `AgentHistories.EventsOverAgentHistory` shows the latter of every agent.
- LifecycleInterleaved.EventsOverInterleavings: a created run is taken to bring such events, another status than "awaiting_review" and no resolution in its output; `AgentInterleavings` shows it of every agent.
- LifecycleHistory.NeverBackInReview: for requests that come one after another; `LifecycleInterleaved` is about the others.
- LifecycleHistory.ReviewableOverHistory: an agent that reports a review status is taken to ask for review too, which `AgentHistories` shows of every agent, and create requests to finish; `CreatedWithoutCaseExactlyWhen` says what happens otherwise.
- Percentile.PercentileRisesWithFraction: fractions outside [0, 1] are not modelled; the callers pass 0.5 and 0.95.
- Usage.GetUsage: parsing of the date parameters is not modelled, the window is given; the order of an ungrouped listing is that of the table.
