/** What the circuit breaker guarantees over whole histories of calls. */
module BreakerHistory {
  import opened ToolRunner

  // ----- the invariant behind the breaker, for every interleaving of its three operations

  datatype Operation = Check(tool: string, now: real) | Success(tool: string) | Failure(tool: string, now: real)

  ghost function Perform(p: CircuitPolicy, c: Circuit, op: Operation): Circuit {
    match op
    case Check(tool, now) => AfterCheck(p, c, tool, now)
    case Success(tool) => Reset(c, tool)
    case Failure(tool, now) => AfterFailure(p, c, tool, now)
  }

  ghost function PerformAll(p: CircuitPolicy, ops: seq<Operation>): Circuit {
    if ops == [] then CLOSED else Perform(p, PerformAll(p, ops[..|ops| - 1]), ops[|ops| - 1])
  }

  /** A circuit is open exactly if the breaker is enabled and its failures have reached the threshold. */
  ghost predicate OpenIffThresholdReached(p: CircuitPolicy, c: Circuit) {
    forall tool :: tool in c.openedAt <==> p.threshold > 0 && FailuresOf(c, tool) >= p.threshold
  }

  lemma {:induction false} EveryInterleavingKeepsInvariant(p: CircuitPolicy, ops: seq<Operation>)
    ensures OpenIffThresholdReached(p, PerformAll(p, ops))
  {
    if ops != [] {
      EveryInterleavingKeepsInvariant(p, ops[..|ops| - 1]);
    }
  }

  // ----- sequential histories of runs

  datatype Entry = Entry(call: Call, outcome: Outcome)

  ghost function StateAfter(p: CircuitPolicy, h: seq<Entry>): Circuit {
    if h == [] then CLOSED
    else var last := h[|h| - 1]; AfterCall(p, StateAfter(p, h[..|h| - 1]), last.call, last.outcome)
  }

  /** Every outcome in the history is the one the runner gives on the breaker it finds. */
  ghost predicate IsHistory(retry: RetryPolicy, p: CircuitPolicy, h: seq<Entry>) {
    forall i :: 0 <= i < |h| ==> Answers(retry, p, StateAfter(p, h[..i]), h[i].call, h[i].outcome)
  }

  /** When the last run of the history was over; `start` if there was none. */
  ghost function Clock(start: real, h: seq<Entry>): real {
    if h == [] then start else h[|h| - 1].call.recordedAt
  }

  /** The runs follow one another and the clock never goes backwards. */
  ghost predicate Sequential(start: real, h: seq<Entry>) {
    forall i :: 0 <= i < |h| ==> Clock(start, h[..i]) <= h[i].call.checkedAt <= h[i].call.recordedAt
  }

  ghost predicate OnlyFails(tool: string, h: seq<Entry>) {
    forall i :: 0 <= i < |h| && h[i].call.tool == tool && h[i].call.registered ==>
      h[i].outcome.Result? && h[i].outcome.status != Completed
  }

  /** A call that can only fail: its input is invalid, or every invocation of the tool raises an `Exception`, and the
      pauses between the attempts are made. */
  ghost predicate BoundToFail(retry: RetryPolicy, call: Call) {
    call.validation.Invalid? ||
    (call.validation.Valid? && retry.attempts >= 1 && Retried(retry, call, retry.attempts))
  }

  /** Histories of calls that can only fail only fail, so the bound below holds for them. */
  lemma BoundToFailFails(retry: RetryPolicy, p: CircuitPolicy, tool: string, h: seq<Entry>)
    requires IsHistory(retry, p, h)
    requires forall i :: 0 <= i < |h| && h[i].call.tool == tool && h[i].call.registered ==>
             BoundToFail(retry, h[i].call)
    ensures OnlyFails(tool, h)
  {
    forall i | 0 <= i < |h| && h[i].call.tool == tool && h[i].call.registered
      ensures h[i].outcome.Result? && h[i].outcome.status != Completed
    {
      FailingCallFails(retry, p, StateAfter(p, h[..i]), h[i].call, h[i].outcome);
    }
  }

  lemma FailingCallFails(retry: RetryPolicy, p: CircuitPolicy, c: Circuit, call: Call, r: Outcome)
    requires Answers(retry, p, c, call, r) && call.registered && BoundToFail(retry, call)
    ensures r.Result? && r.status != Completed
  {
    if ReachesLoop(p, c, call) {
      SettledByItsLoop(retry, p, c, call, r, Exhausted);
    }
  }

  /** The run got past the breaker. */
  ghost predicate Admitted(tool: string, e: Entry) {
    e.call.tool == tool && CountsAsFailure(e.call, e.outcome)
  }

  ghost function AdmittedRuns(tool: string, h: seq<Entry>): nat {
    if h == [] then 0
    else AdmittedRuns(tool, h[..|h| - 1]) + (if Admitted(tool, h[|h| - 1]) then 1 else 0)
  }

  /** How often the tool itself was invoked. */
  ghost function Invocations(tool: string, h: seq<Entry>): nat {
    if h == [] then 0
    else Invocations(tool, h[..|h| - 1]) + (if Admitted(tool, h[|h| - 1]) then h[|h| - 1].outcome.attempts else 0)
  }

  ghost predicate Played(retry: RetryPolicy, p: CircuitPolicy, tool: string, start: real, h: seq<Entry>) {
    IsHistory(retry, p, h) && Sequential(start, h) && OnlyFails(tool, h)
  }

  lemma PlayedPrefix(retry: RetryPolicy, p: CircuitPolicy, tool: string, start: real, h: seq<Entry>)
    requires h != [] && Played(retry, p, tool, start, h)
    ensures Played(retry, p, tool, start, h[..|h| - 1])
    ensures var last := h[|h| - 1];
            && Answers(retry, p, StateAfter(p, h[..|h| - 1]), last.call, last.outcome)
            && Clock(start, h[..|h| - 1]) <= last.call.checkedAt <= last.call.recordedAt
            && (last.call.tool == tool && last.call.registered ==>
                last.outcome.Result? && last.outcome.status != Completed)
  {
    var front := h[..|h| - 1];
    forall i | 0 <= i < |front| ensures front[..i] == h[..i] && front[i] == h[i] {}
  }

  /** Where the breaker of `tool` stands after `n` admitted runs during which its circuit opened `k` times. */
  ghost predicate Standing(p: CircuitPolicy, c: Circuit, tool: string, start: real, now: real, n: nat, k: nat) {
    if tool in c.openedAt then
      k > 0 && n == p.threshold * k && FailuresOf(c, tool) == p.threshold &&
      start + (k - 1) as real * p.cooldown <= c.openedAt[tool] <= now
    else
      0 <= FailuresOf(c, tool) < p.threshold && n == p.threshold * k + FailuresOf(c, tool) &&
      start + k as real * p.cooldown <= now
  }

  /** A check leaves the count alone: it can only close a circuit whose cooldown has passed. */
  lemma CheckKeepsStanding(
    p: CircuitPolicy, c: Circuit, tool: string, other: string, start: real, before: real, now: real, n: nat, k: nat)
    requires p.threshold > 0 && before <= now && Standing(p, c, tool, start, before, n, k)
    ensures Standing(p, AfterCheck(p, c, other, now), tool, start, now, n, k)
    ensures other == tool && !Refuses(p, c, tool, now) ==> tool !in AfterCheck(p, c, other, now).openedAt
  {
    if tool in c.openedAt {
      assert k as real * p.cooldown == (k - 1) as real * p.cooldown + p.cooldown;
    }
  }

  /** A counted failure takes the count one further, and the circuit opens when a window is full. */
  lemma FailureMovesStanding(
    p: CircuitPolicy, c: Circuit, tool: string, start: real, before: real, now: real, n: nat, k: nat)
    returns (k': nat)
    requires p.threshold > 0 && before <= now && Standing(p, c, tool, start, before, n, k) && tool !in c.openedAt
    ensures Standing(p, AfterFailure(p, c, tool, now), tool, start, now, n + 1, k')
  {
    var count := FailuresOf(c, tool) + 1;
    k' := if count == p.threshold then k + 1 else k;
    assert p.threshold * (k + 1) == p.threshold * k + p.threshold;
  }

  /** One run moves the breaker from one such standing to another. */
  lemma RunKeepsStanding(
    p: CircuitPolicy, c: Circuit, tool: string, start: real, before: real, run: Entry, n: nat, k: nat)
    returns (k': nat)
    requires p.threshold > 0 && Standing(p, c, tool, start, before, n, k)
    requires before <= run.call.checkedAt <= run.call.recordedAt
    requires run.call.tool == tool && run.call.registered ==> run.outcome.Result? && run.outcome.status != Completed
    requires Admitted(tool, run) ==> !Refuses(p, c, tool, run.call.checkedAt)
    ensures Standing(p, AfterCall(p, c, run.call, run.outcome), tool, start, run.call.recordedAt,
                     n + (if Admitted(tool, run) then 1 else 0), k')
  {
    k' := k;
    if run.call.registered {
      CheckKeepsStanding(p, c, tool, run.call.tool, start, before, run.call.checkedAt, n, k);
      var checked := AfterCheck(p, c, run.call.tool, run.call.checkedAt);
      if Admitted(tool, run) {
        k' := FailureMovesStanding(p, checked, tool, start, run.call.checkedAt, run.call.recordedAt, n, k);
      }
    }
  }

  lemma {:induction false} EveryRunKeepsStanding(
    retry: RetryPolicy, p: CircuitPolicy, tool: string, start: real, h: seq<Entry>)
    returns (k: nat)
    requires p.threshold > 0 && p.cooldown > 0.0 && Played(retry, p, tool, start, h)
    ensures Standing(p, StateAfter(p, h), tool, start, Clock(start, h), AdmittedRuns(tool, h), k)
    decreases |h|
  {
    if h == [] {
      return 0;
    }
    var front, last := h[..|h| - 1], h[|h| - 1];
    PlayedPrefix(retry, p, tool, start, h);
    k := EveryRunKeepsStanding(retry, p, tool, start, front);
    k := RunKeepsStanding(p, StateAfter(p, front), tool, start, Clock(start, front), last, AdmittedRuns(tool, front),
                          k);
  }

  lemma WindowsFit(k: nat, width: real, span: real)
    requires width > 0.0 && k as real * width <= span
    ensures k <= (span / width).Floor
  {
    assert k as real <= span / width;
  }

  /** A breaker that stands there has seen `full` whole cooldowns, and at most one more window of failures. */
  lemma WindowsSeen(
    p: CircuitPolicy, c: Circuit, tool: string, start: real, now: real, n: nat, k: nat)
    returns (full: nat)
    requires p.threshold > 0 && Standing(p, c, tool, start, now, n, k)
    ensures n <= p.threshold * full + p.threshold && full as real * p.cooldown <= now - start
  {
    full := if tool in c.openedAt then k - 1 else k;
    assert tool in c.openedAt ==> p.threshold * k == p.threshold * full + p.threshold;
  }

  lemma WindowsBound(a: int, full: nat, windows: nat, n: nat)
    requires a >= 0 && n <= a * full + a && full + 1 <= windows
    ensures n <= a * windows
  {
    assert a * (full + 1) == a * full + a;
    Ordered(a, full + 1, windows);
  }

  lemma StandingBound(p: CircuitPolicy, c: Circuit, tool: string, start: real, now: real, n: nat, k: nat)
    requires p.threshold > 0 && p.cooldown > 0.0 && Standing(p, c, tool, start, now, n, k)
    ensures var windows := ((now - start) / p.cooldown).Floor + 1;
            windows >= 1 && n <= p.threshold * windows
  {
    var full := WindowsSeen(p, c, tool, start, now, n, k);
    WindowsFit(full, p.cooldown, now - start);
    WindowsBound(p.threshold, full, ((now - start) / p.cooldown).Floor + 1, n);
  }

  lemma Ordered(a: int, x: int, y: int)
    requires a >= 0 && x <= y
    ensures a * x <= a * y
  {}

  /** A call makes at most `attempts` invocations. */
  lemma AttemptsWithin(retry: RetryPolicy, p: CircuitPolicy, c: Circuit, call: Call, r: Outcome)
    requires retry.attempts >= 0 && Answers(retry, p, c, call, r)
    ensures r.Result? ==> r.attempts <= retry.attempts
  {}

  lemma OneMoreRun(a: int, invocations: int, n: int, more: int)
    requires invocations <= a * n && more <= a
    ensures invocations + more <= a * (n + 1)
  {
    assert a * (n + 1) == a * n + a;
  }

  lemma {:induction false} InvocationsPerRun(
    retry: RetryPolicy, p: CircuitPolicy, tool: string, start: real, h: seq<Entry>)
    requires retry.attempts >= 0 && Played(retry, p, tool, start, h)
    ensures Invocations(tool, h) <= retry.attempts * AdmittedRuns(tool, h)
    decreases |h|
  {
    if h != [] {
      var front, last := h[..|h| - 1], h[|h| - 1];
      PlayedPrefix(retry, p, tool, start, h);
      InvocationsPerRun(retry, p, tool, start, front);
      if Admitted(tool, last) {
        AttemptsWithin(retry, p, StateAfter(p, front), last.call, last.outcome);
        OneMoreRun(retry.attempts, Invocations(tool, front), AdmittedRuns(tool, front), last.outcome.attempts);
      }
    }
  }

  /** However long a failing tool is called, and whatever other tools do meanwhile, at most `threshold` runs
      per cooldown window get past the breaker, and the tool is invoked at most `attempts` times for each. */
  lemma AmortisedProtection(retry: RetryPolicy, p: CircuitPolicy, tool: string, start: real, h: seq<Entry>)
    requires p.threshold > 0 && p.cooldown > 0.0 && retry.attempts >= 0 && Played(retry, p, tool, start, h)
    ensures var windows := ((Clock(start, h) - start) / p.cooldown).Floor + 1;
            && windows >= 1
            && AdmittedRuns(tool, h) <= p.threshold * windows
            && Invocations(tool, h) <= retry.attempts * (p.threshold * windows)
  {
    var k := EveryRunKeepsStanding(retry, p, tool, start, h);
    StandingBound(p, StateAfter(p, h), tool, start, Clock(start, h), AdmittedRuns(tool, h), k);
    InvocationsPerRun(retry, p, tool, start, h);
    Ordered(retry.attempts, AdmittedRuns(tool, h), p.threshold * (((Clock(start, h) - start) / p.cooldown).Floor + 1));
  }
}
