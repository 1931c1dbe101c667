/** Tool invocation: retry with capped exponential backoff behind a per-tool circuit breaker. */
module ToolRunner {
  import opened Values

  // ----- retry policy

  datatype RetryPolicy = RetryPolicy(attempts: int, base: real, factor: real, cap: real)

  function Power(x: real, n: nat): real {
    if n == 0 then 1.0 else x * Power(x, n - 1)
  }

  /** The pause before the retry that follows attempt number `attempt` (counted from 0). */
  function Backoff(p: RetryPolicy, attempt: nat): real {
    var computed := p.base * Power(p.factor, attempt);
    if computed < p.cap then computed else p.cap
  }

  ghost function Sum(s: seq<real>): real {
    if s == [] then 0.0 else Sum(s[..|s| - 1]) + s[|s| - 1]
  }

  ghost function Delays(p: RetryPolicy, n: nat): seq<real> {
    seq(n, i requires 0 <= i => Backoff(p, i))
  }

  lemma {:induction false} PowerGrows(x: real, n: nat)
    requires x >= 1.0
    ensures 1.0 <= Power(x, n) <= Power(x, n + 1)
  {
    if n > 0 {
      PowerGrows(x, n - 1);
    }
  }

  lemma {:induction false} PowerNotNegative(x: real, n: nat)
    requires x >= 0.0
    ensures Power(x, n) >= 0.0
  {
    if n > 0 {
      PowerNotNegative(x, n - 1);
    }
  }

  /** Delays never shrink from one retry to the next when the factor is at least 1. */
  lemma {:induction false} DelaysNeverShrink(p: RetryPolicy, i: nat, j: nat)
    requires p.factor >= 1.0 && p.base >= 0.0 && i <= j
    ensures Backoff(p, i) <= Backoff(p, j)
    decreases j - i
  {
    if i < j {
      DelaysNeverShrink(p, i + 1, j);
      PowerGrows(p.factor, i);
      MultiplyOrdered(p.base, Power(p.factor, i), Power(p.factor, i + 1));
    }
  }

  lemma MultiplyOrdered(a: real, x: real, y: real)
    requires a >= 0.0 && x <= y
    ensures a * x <= a * y
  {}

  /** The total pause is at most the cap for each retry that can happen. */
  lemma {:induction false} TotalDelayCapped(p: RetryPolicy, n: nat)
    requires p.cap >= 0.0 && n < p.attempts
    ensures Sum(Delays(p, n)) <= n as real * p.cap <= (p.attempts - 1) as real * p.cap
  {
    MultiplyOrdered(p.cap, n as real, (p.attempts - 1) as real);
    if n > 0 {
      assert Delays(p, n)[..n - 1] == Delays(p, n - 1);
      TotalDelayCapped(p, n - 1);
      assert n as real * p.cap == (n - 1) as real * p.cap + p.cap;
    }
  }

  /** The delays as they would be without the cap. */
  ghost function UncappedDelays(base: real, factor: real, n: nat): seq<real> {
    seq(n, i requires 0 <= i => base * Power(factor, i))
  }

  /** A sum and a power related as in a geometric series. */
  ghost predicate Geometric(base: real, factor: real, power: real, sum: real) {
    (factor - 1.0) * sum == base * power - base
  }

  lemma GeometricStart(base: real, factor: real)
    ensures Geometric(base, factor, 1.0, 0.0)
  {}

  lemma GeometricStep(base: real, factor: real, power: real, sum: real)
    requires Geometric(base, factor, power, sum)
    ensures Geometric(base, factor, factor * power, sum + base * power)
  {
    assert (factor - 1.0) * (sum + base * power) == (factor - 1.0) * sum + (factor - 1.0) * (base * power);
    assert (factor - 1.0) * (base * power) == base * (factor * power) - base * power;
  }

  lemma {:induction false} GeometricSum(base: real, factor: real, n: nat)
    ensures Geometric(base, factor, Power(factor, n), Sum(UncappedDelays(base, factor, n)))
  {
    if n == 0 {
      assert UncappedDelays(base, factor, n) == [];
      GeometricStart(base, factor);
    } else {
      assert UncappedDelays(base, factor, n)[..n - 1] == UncappedDelays(base, factor, n - 1);
      GeometricSum(base, factor, n - 1);
      GeometricStep(base, factor, Power(factor, n - 1), Sum(UncappedDelays(base, factor, n - 1)));
    }
  }

  /** Without the cap the pauses form a geometric series. */
  lemma GeometricClosedForm(base: real, factor: real, n: nat)
    ensures (factor - 1.0) * Sum(UncappedDelays(base, factor, n)) == base * Power(factor, n) - base
  {
    GeometricSum(base, factor, n);
  }

  lemma {:induction false} SumOrdered(a: seq<real>, b: seq<real>)
    requires |a| == |b| && forall i :: 0 <= i < |a| ==> a[i] <= b[i]
    ensures Sum(a) <= Sum(b)
  {
    if a != [] {
      SumOrdered(a[..|a| - 1], b[..|b| - 1]);
    }
  }

  /** The total pause never exceeds the sum of that series, and equals it when no delay reaches the cap. */
  lemma TotalDelayGeometric(p: RetryPolicy, n: nat)
    ensures var uncapped := UncappedDelays(p.base, p.factor, n);
            && Sum(Delays(p, n)) <= Sum(uncapped)
            && ((forall i :: 0 <= i < n ==> uncapped[i] <= p.cap) ==> Sum(Delays(p, n)) == Sum(uncapped))
  {
    var uncapped, delays := UncappedDelays(p.base, p.factor, n), Delays(p, n);
    forall i | 0 <= i < n ensures delays[i] == if uncapped[i] < p.cap then uncapped[i] else p.cap {
      CappedDelay(p, n, i);
    }
    SumOrdered(delays, uncapped);
    if forall i :: 0 <= i < n ==> uncapped[i] <= p.cap {
      SumOrdered(uncapped, delays);
    }
  }

  lemma CappedDelay(p: RetryPolicy, n: nat, i: nat)
    requires i < n
    ensures var d := UncappedDelays(p.base, p.factor, n)[i]; Delays(p, n)[i] == if d < p.cap then d else p.cap
  {}

  // ----- circuit breaker

  datatype CircuitPolicy = CircuitPolicy(threshold: int, cooldown: real)

  /** What the breaker remembers: consecutive failures per tool and when a tool's circuit was opened. */
  datatype Circuit = Circuit(failures: map<string, int>, openedAt: map<string, real>)

  const CLOSED := Circuit(map[], map[])

  function FailuresOf(c: Circuit, tool: string): int {
    if tool in c.failures then c.failures[tool] else 0
  }

  ghost predicate Refuses(p: CircuitPolicy, c: Circuit, tool: string, now: real) {
    p.threshold > 0 && tool in c.openedAt && now - c.openedAt[tool] < p.cooldown
  }

  ghost function Reset(c: Circuit, tool: string): Circuit {
    Circuit(c.failures[tool := 0], c.openedAt - {tool})
  }

  ghost function AfterCheck(p: CircuitPolicy, c: Circuit, tool: string, now: real): Circuit {
    if p.threshold > 0 && tool in c.openedAt && !Refuses(p, c, tool, now) then Reset(c, tool) else c
  }

  ghost function AfterFailure(p: CircuitPolicy, c: Circuit, tool: string, now: real): Circuit {
    if p.threshold <= 0 then c
    else
      var count := FailuresOf(c, tool) + 1;
      Circuit(c.failures[tool := count], if count >= p.threshold then c.openedAt[tool := now] else c.openedAt)
  }

  class CircuitBreaker {
    const policy: CircuitPolicy
    var failures: map<string, int>
    var openedAt: map<string, real>

    ghost function View(): Circuit
      reads this
    {
      Circuit(failures, openedAt)
    }

    constructor (policy: CircuitPolicy)
      ensures this.policy == policy && View() == CLOSED
    {
      this.policy := policy;
      failures, openedAt := map[], map[];
    }

    method IsOpen(tool: string, now: real) returns (open: bool)
      modifies this
      ensures open <==> Refuses(policy, old(View()), tool, now)
      ensures View() == AfterCheck(policy, old(View()), tool, now)
    {
      if policy.threshold <= 0 || tool !in openedAt {
        return false;
      }
      if now - openedAt[tool] >= policy.cooldown {
        openedAt := openedAt - {tool};
        failures := failures[tool := 0];
        return false;
      }
      return true;
    }

    method RecordSuccess(tool: string)
      modifies this
      ensures View() == Reset(old(View()), tool)
    {
      failures := failures[tool := 0];
      openedAt := openedAt - {tool};
    }

    method RecordFailure(tool: string, now: real)
      modifies this
      ensures View() == AfterFailure(policy, old(View()), tool, now)
    {
      if policy.threshold <= 0 {
        return;
      }
      var count := (if tool in failures then failures[tool] else 0) + 1;
      failures := failures[tool := count];
      if count >= policy.threshold {
        openedAt := openedAt[tool := now];
      }
    }
  }

  // ----- one run of the runner

  /** What one `tool.invoke` does. A tool is meant to return a model: `Nothing` is a returned None, `NoModel` any
      other result whose `model_dump` raises. `Unprintable` raises an `Exception` whose `__str__` raises in turn, as
      the warning about it finds out; `Abort` raises outside `Exception`, as an interrupt does. */
  datatype Reply =
    | Output(payload: map<string, Value>)
    | Nothing
    | NoModel
    | Raise(error: string)
    | Unprintable
    | Abort

  /** What `model_validate` does with the raw input; `Breaks` raises something that is no ValidationError. */
  datatype Validation = Valid | Invalid(error: string) | Breaks

  /** One call of `ToolRunner.run`. `replies(i)` is what invocation `i` would do if it were made. `pauseRaises(i, d)`
      says whether the pause after it, of `d` seconds, raises: `time.sleep` does for every negative delay, and the
      power in the delay may leave the range of a float. */
  datatype Call = Call(
    tool: string,
    registered: bool,
    validation: Validation,
    replies: nat -> Reply,
    pauseRaises: (nat, real) -> bool,
    checkedAt: real,
    recordedAt: real)

  datatype Status = Completed | ValidationError | Failed | CircuitOpen

  /** Why `run` raises instead of returning. */
  datatype Escape =
    | ValidatorBroke      // the validator raised something else than a ValidationError
    | PauseRaised         // the pause before a retry raised
    | ErrorUnprintable    // an invocation raised something whose text cannot be had
    | Aborted             // an invocation raised outside `Exception`
    | NothingReturned     // the assertion: no output, and no error to report either
    | NotAModel           // the output has no working `model_dump`

  datatype Outcome =
    | Result(status: Status, attempts: nat, payload: map<string, Value>, error: Option<string>)
    | Raised(escape: Escape)

  /** How the loop over the attempts ends. */
  datatype Loop =
    | Succeeded(at: nat)    // invocation `at` returned a model
    | Unusable(at: nat)     // invocation `at` returned something that is no model
    | Stopped(at: nat)      // invocation `at` returned None
    | Interrupted(at: nat)  // invocation `at` raised outside `Exception`
    | Unprinted(at: nat)    // invocation `at` raised, and then printing its error did
    | Unrested(at: nat)     // invocation `at` raised, and then the pause did
    | Exhausted             // every invocation raised

  /** The first `n` invocations raised, and every pause after one of them was made. */
  ghost predicate Retried(p: RetryPolicy, call: Call, n: nat) {
    forall i :: 0 <= i < n ==>
      call.replies(i).Raise? && (i < p.attempts - 1 ==> !call.pauseRaises(i, Backoff(p, i)))
  }

  /** The invocation with which the loop ends, if one does. */
  function EndOf(end: Loop): Option<nat> {
    match end
    case Exhausted => None
    case _ => Some(end.at)
  }

  ghost predicate EndsAs(p: RetryPolicy, call: Call, end: Loop) {
    if end.Exhausted? then Retried(p, call, if p.attempts > 0 then p.attempts else 0)
    else
      end.at < p.attempts && Retried(p, call, end.at) &&
      match end
      case Succeeded(at) => call.replies(at).Output?
      case Unusable(at) => call.replies(at).NoModel?
      case Stopped(at) => call.replies(at).Nothing?
      case Interrupted(at) => call.replies(at).Abort?
      case Unprinted(at) => call.replies(at).Unprintable?
      case Unrested(at) =>
        call.replies(at).Raise? && at < p.attempts - 1 && call.pauseRaises(at, Backoff(p, at))
  }

  lemma LoopEndsOneWay(p: RetryPolicy, call: Call, a: Loop, b: Loop)
    requires EndsAs(p, call, a) && EndsAs(p, call, b)
    ensures a == b
  {}

  function NotRegistered(tool: string): string {
    "tool not registered: " + tool
  }

  const REFUSAL := "circuit breaker open for this tool"

  /** The outcome of a valid call that the breaker let through. */
  ghost function Settled(p: RetryPolicy, call: Call, end: Loop): Outcome
    requires EndsAs(p, call, end)
  {
    match end
    case Succeeded(at) => Result(Completed, at + 1, call.replies(at).payload, None)
    case Unusable(_) => Raised(NotAModel)
    case Interrupted(_) => Raised(Aborted)
    case Unprinted(_) => Raised(ErrorUnprintable)
    case Unrested(_) => Raised(PauseRaised)
    case Stopped(at) =>
      if at == 0 then Raised(NothingReturned)
      else Result(Failed, at + 1, map[], Some(call.replies(at - 1).error))
    case Exhausted =>
      if p.attempts <= 0 then Raised(NothingReturned)
      else Result(Failed, p.attempts, map[], Some(call.replies(p.attempts - 1).error))
  }

  /** The breaker counts a failure for a call it let through that was reported as failed or invalid. */
  ghost predicate CountsAsFailure(call: Call, r: Outcome) {
    call.registered && r.Result? && (r.status == ValidationError || r.status == Failed)
  }

  /** A success is recorded before the output is read, so also for an output that is no model. */
  ghost predicate CountsAsSuccess(r: Outcome) {
    r == Raised(NotAModel) || (r.Result? && r.status == Completed)
  }

  ghost function AfterCall(p: CircuitPolicy, c: Circuit, call: Call, r: Outcome): Circuit {
    if !call.registered then c
    else
      var checked := AfterCheck(p, c, call.tool, call.checkedAt);
      if CountsAsFailure(call, r) then AfterFailure(p, checked, call.tool, call.recordedAt)
      else if CountsAsSuccess(r) then Reset(checked, call.tool)
      else checked
  }

  /** The call gets as far as the loop over the attempts. */
  ghost predicate ReachesLoop(circuit: CircuitPolicy, c: Circuit, call: Call) {
    call.registered && !Refuses(circuit, c, call.tool, call.checkedAt) && call.validation.Valid?
  }

  /** Which outcome a call has, given the breaker it finds. */
  ghost predicate Answers(retry: RetryPolicy, circuit: CircuitPolicy, c: Circuit, call: Call, r: Outcome) {
    if !call.registered then r == Result(Failed, 0, map[], Some(NotRegistered(call.tool)))
    else if Refuses(circuit, c, call.tool, call.checkedAt) then r == Result(CircuitOpen, 0, map[], Some(REFUSAL))
    else
      match call.validation
      case Invalid(error) => r == Result(ValidationError, 0, map[], Some(error))
      case Breaks => r == Raised(ValidatorBroke)
      case Valid => exists end :: EndsAs(retry, call, end) && r == Settled(retry, call, end)
  }

  /** How often the tool itself is invoked. */
  ghost function InvocationsOf(end: Loop, attempts: int): nat {
    match EndOf(end)
    case Some(at) => at + 1
    case None => if attempts > 0 then attempts else 0
  }

  /** How many pauses the loop makes: one between each two invocations. */
  ghost function PausesOf(end: Loop, attempts: int): nat {
    match EndOf(end)
    case Some(at) => at
    case None => if attempts > 0 then attempts - 1 else 0
  }

  /** The pauses of a call, given the breaker it finds: none unless it gets as far as the loop. */
  ghost predicate Pauses(retry: RetryPolicy, circuit: CircuitPolicy, c: Circuit, call: Call, delays: seq<real>) {
    if !ReachesLoop(circuit, c, call) then delays == []
    else exists end :: EndsAs(retry, call, end) && delays == Delays(retry, PausesOf(end, retry.attempts))
  }

  class Runner {
    const retry: RetryPolicy
    const breaker: CircuitBreaker

    constructor (retry: RetryPolicy, breaker: CircuitBreaker)
      ensures this.retry == retry && this.breaker == breaker
    {
      this.retry := retry;
      this.breaker := breaker;
    }

    /** The loop over the attempts, with the pauses it makes. */
    method Invoke(call: Call) returns (end: Loop, lastError: Option<string>, delays: seq<real>)
      ensures EndsAs(retry, call, end)
      ensures delays == Delays(retry, PausesOf(end, retry.attempts))
      ensures !end.Unrested? ==>
                var failed := if end.Exhausted? then InvocationsOf(end, retry.attempts) else end.at;
                lastError == if failed == 0 then None else Some(call.replies(failed - 1).error)
    {
      delays, lastError := [], None;
      var attempt := 0;
      while attempt < retry.attempts
        invariant 0 <= attempt && Retried(retry, call, attempt)
        invariant attempt <= retry.attempts || attempt == 0
        invariant lastError == if attempt == 0 then None else Some(call.replies(attempt - 1).error)
        invariant delays == Delays(retry, if 0 < attempt == retry.attempts then attempt - 1 else attempt)
      {
        var reply := call.replies(attempt);
        match reply {
          case Output(_) => return Succeeded(attempt), lastError, delays;
          case NoModel => return Unusable(attempt), lastError, delays;
          case Nothing => return Stopped(attempt), lastError, delays;
          case Abort => return Interrupted(attempt), lastError, delays;
          case Unprintable => return Unprinted(attempt), lastError, delays;
          case Raise(error) => lastError := Some(error);
        }
        if attempt < retry.attempts - 1 {
          if call.pauseRaises(attempt, Backoff(retry, attempt)) {
            return Unrested(attempt), lastError, delays;
          }
          delays := delays + [Backoff(retry, attempt)];
        }
        attempt := attempt + 1;
      }
      end := Exhausted;
    }

    /** `ToolRunner.run`. */
    method Run(call: Call) returns (r: Outcome, delays: seq<real>)
      modifies breaker
      ensures Answers(retry, breaker.policy, old(breaker.View()), call, r)
      ensures breaker.View() == AfterCall(breaker.policy, old(breaker.View()), call, r)
      ensures Pauses(retry, breaker.policy, old(breaker.View()), call, delays)
    {
      delays := [];
      if !call.registered {
        return Result(Failed, 0, map[], Some(NotRegistered(call.tool))), delays;
      }
      var open := breaker.IsOpen(call.tool, call.checkedAt);
      if open {
        return Result(CircuitOpen, 0, map[], Some(REFUSAL)), delays;
      }
      if call.validation.Breaks? {
        return Raised(ValidatorBroke), delays;
      }
      if call.validation.Invalid? {
        breaker.RecordFailure(call.tool, call.recordedAt);
        return Result(ValidationError, 0, map[], Some(call.validation.error)), delays;
      }
      var end, lastError;
      end, lastError, delays := Invoke(call);
      if end.Unrested? {
        r := Raised(PauseRaised);
      } else if end.Interrupted? {
        r := Raised(Aborted);
      } else if end.Unprinted? {
        r := Raised(ErrorUnprintable);
      } else if end.Succeeded? || end.Unusable? {
        breaker.RecordSuccess(call.tool);
        r := if end.Unusable? then Raised(NotAModel)
             else Result(Completed, end.at + 1, call.replies(end.at).payload, None);
      } else if lastError.None? {
        r := Raised(NothingReturned);
      } else {
        breaker.RecordFailure(call.tool, call.recordedAt);
        r := Result(Failed, if end.Stopped? then end.at + 1 else retry.attempts, map[], lastError);
      }
      assert r == Settled(retry, call, end);
    }
  }

  // ----- what a run means for its caller

  /** The loop of a call that reaches it ends as it does. */
  lemma SettledByItsLoop(retry: RetryPolicy, circuit: CircuitPolicy, c: Circuit, call: Call, r: Outcome, end: Loop)
    requires Answers(retry, circuit, c, call, r) && ReachesLoop(circuit, c, call) && EndsAs(retry, call, end)
    ensures r == Settled(retry, call, end)
  {
    var other :| EndsAs(retry, call, other) && r == Settled(retry, call, other);
    LoopEndsOneWay(retry, call, end, other);
  }

  /** Some way in which the loop ends. */
  lemma SomeEnd(retry: RetryPolicy, circuit: CircuitPolicy, c: Circuit, call: Call, r: Outcome) returns (end: Loop)
    requires Answers(retry, circuit, c, call, r) && ReachesLoop(circuit, c, call)
    ensures EndsAs(retry, call, end) && r == Settled(retry, call, end)
  {
    end :| EndsAs(retry, call, end) && r == Settled(retry, call, end);
  }

  /** Invocation `k` is made and returns a model. */
  ghost predicate SucceedsAt(retry: RetryPolicy, call: Call, k: nat) {
    k < retry.attempts && Retried(retry, call, k) && call.replies(k).Output?
  }

  /** A call completes exactly if it gets as far as the loop and one of the allowed invocations returns a model
      after all before it raised and the pauses between were made; `attempts` is then its number, from 1. */
  lemma CompletesIffAnInvocationSucceeds(retry: RetryPolicy, circuit: CircuitPolicy, c: Circuit, call: Call, r: Outcome)
    requires Answers(retry, circuit, c, call, r)
    ensures r.Result? && r.status == Completed <==>
            ReachesLoop(circuit, c, call) && exists k: nat :: SucceedsAt(retry, call, k)
    ensures forall k: nat :: ReachesLoop(circuit, c, call) && SucceedsAt(retry, call, k) ==>
              r == Result(Completed, k + 1, call.replies(k).payload, None)
  {
    if ReachesLoop(circuit, c, call) {
      var end := SomeEnd(retry, circuit, c, call, r);
      if end.Succeeded? {
        assert SucceedsAt(retry, call, end.at);
      }
      forall k: nat | SucceedsAt(retry, call, k) ensures end == Succeeded(k) {
        LoopEndsOneWay(retry, call, end, Succeeded(k));
      }
    }
  }

  /** Invocation `k` is made, and the run raises there: it is interrupted, or raises something that cannot be
      printed, or returns something that is no model, or returns None with no error before it, or raises and then
      the pause before the next one raises. */
  ghost predicate EscapesAt(retry: RetryPolicy, call: Call, k: nat) {
    && k < retry.attempts
    && Retried(retry, call, k)
    && match call.replies(k)
       case Abort => true
       case Unprintable => true
       case NoModel => true
       case Nothing => k == 0
       case Raise(_) => k < retry.attempts - 1 && call.pauseRaises(k, Backoff(retry, k))
       case Output(_) => false
  }

  lemma EscapingEnd(retry: RetryPolicy, call: Call, k: nat) returns (end: Loop)
    requires EscapesAt(retry, call, k)
    ensures EndsAs(retry, call, end) && Settled(retry, call, end).Raised?
  {
    match call.replies(k)
    case Abort => end := Interrupted(k);
    case Unprintable => end := Unprinted(k);
    case NoModel => end := Unusable(k);
    case Nothing => end := Stopped(k);
    case Raise(_) => end := Unrested(k);
  }

  lemma EscapeOfLoop(retry: RetryPolicy, call: Call, end: Loop)
    requires EndsAs(retry, call, end)
    ensures Settled(retry, call, end).Raised? <==> retry.attempts <= 0 || exists k: nat :: EscapesAt(retry, call, k)
  {
    if Settled(retry, call, end).Raised? && retry.attempts > 0 {
      assert EscapesAt(retry, call, end.at);
    }
    if k: nat :| EscapesAt(retry, call, k) {
      var other := EscapingEnd(retry, call, k);
      LoopEndsOneWay(retry, call, end, other);
    }
  }

  /** `run` is documented never to raise. It raises exactly when the call is registered and not refused, and either
      its validator breaks, or it is valid and no attempt is allowed, or some invocation makes it escape. */
  lemma RaisesExactlyWhen(retry: RetryPolicy, circuit: CircuitPolicy, c: Circuit, call: Call, r: Outcome)
    requires Answers(retry, circuit, c, call, r)
    ensures r.Raised? <==>
            call.registered && !Refuses(circuit, c, call.tool, call.checkedAt) &&
            (call.validation.Breaks? ||
             (call.validation.Valid? && (retry.attempts <= 0 || exists k: nat :: EscapesAt(retry, call, k))))
  {
    if ReachesLoop(circuit, c, call) {
      var end := SomeEnd(retry, circuit, c, call, r);
      EscapeOfLoop(retry, call, end);
    }
  }

  /** The promise kept: with at least one attempt, a policy without negative numbers, pauses that raise for no delay
      that is not negative, a validator that raises nothing else, and a tool that returns a model or raises an
      `Exception` with a text, every call is answered. */
  lemma WellBehavedCallsReturn(retry: RetryPolicy, circuit: CircuitPolicy, c: Circuit, call: Call, r: Outcome)
    requires Answers(retry, circuit, c, call, r)
    requires retry.attempts >= 1 && retry.base >= 0.0 && retry.factor >= 0.0 && retry.cap >= 0.0
    requires forall i, d: real :: d >= 0.0 ==> !call.pauseRaises(i, d)
    requires !call.validation.Breaks? && forall i :: call.replies(i).Output? || call.replies(i).Raise?
    ensures r.Result?
  {
    RaisesExactlyWhen(retry, circuit, c, call, r);
    forall k: nat ensures !EscapesAt(retry, call, k) {
      BackoffNotNegative(retry, k);
    }
  }

  lemma BackoffNotNegative(p: RetryPolicy, attempt: nat)
    requires p.base >= 0.0 && p.factor >= 0.0 && p.cap >= 0.0
    ensures Backoff(p, attempt) >= 0.0
  {
    PowerNotNegative(p.factor, attempt);
    NotNegative(p.base, Power(p.factor, attempt));
  }

  lemma PausesAreFew(
    retry: RetryPolicy, circuit: CircuitPolicy, c: Circuit, call: Call, delays: seq<real>)
    returns (n: nat)
    requires Pauses(retry, circuit, c, call, delays) && retry.attempts >= 1
    ensures n < retry.attempts && delays == Delays(retry, n)
  {
    n := 0;
    if ReachesLoop(circuit, c, call) {
      var end :| EndsAs(retry, call, end) && delays == Delays(retry, PausesOf(end, retry.attempts));
      n := PausesOf(end, retry.attempts);
    }
  }

  /** However a call ends, it never pauses longer in total than the cap for each retry that the policy allows. */
  lemma TotalPauseCapped(retry: RetryPolicy, circuit: CircuitPolicy, c: Circuit, call: Call, delays: seq<real>)
    requires Pauses(retry, circuit, c, call, delays) && retry.cap >= 0.0 && retry.attempts >= 1
    ensures |delays| < retry.attempts && Sum(delays) <= (retry.attempts - 1) as real * retry.cap
  {
    var n := PausesAreFew(retry, circuit, c, call, delays);
    TotalOfFew(retry, n, delays);
  }

  lemma TotalOfFew(retry: RetryPolicy, n: nat, delays: seq<real>)
    requires n < retry.attempts && delays == Delays(retry, n) && retry.cap >= 0.0
    ensures |delays| < retry.attempts && Sum(delays) <= (retry.attempts - 1) as real * retry.cap
  {
    TotalDelayCapped(retry, n);
  }

  lemma NotNegative(x: real, y: real)
    requires x >= 0.0 && y >= 0.0
    ensures x * y >= 0.0
  {}

  // ----- two inputs at which the promise fails

  /** What `time.sleep` does with a negative delay. */
  ghost predicate RejectsNegative(pauseRaises: (nat, real) -> bool) {
    forall i, d: real :: d < 0.0 ==> pauseRaises(i, d)
  }

  /** A negative base: the first invocation raises, the pause does too, and the second, which would return a
      model, is never made. */
  lemma NegativeBaseRaises(c: Circuit, call: Call, payload: map<string, Value>, r: Outcome)
    requires RejectsNegative(call.pauseRaises) && call.registered && call.validation.Valid?
    requires call.replies == ((i: nat) => if i == 0 then Raise("timeout") else Output(payload))
    requires Answers(RetryPolicy(2, -1.0, 2.0, 5.0), CircuitPolicy(0, 30.0), c, call, r)
    ensures r == Raised(PauseRaised)
  {
    var retry := RetryPolicy(2, -1.0, 2.0, 5.0);
    assert Backoff(retry, 0) == -1.0;
    SettledByItsLoop(retry, CircuitPolicy(0, 30.0), c, call, r, Unrested(0));
  }

  /** A tool that returns a plain dict: its success is recorded, and then the run raises. */
  lemma PlainDictRaises(retry: RetryPolicy, c: Circuit, call: Call, r: Outcome)
    requires retry.attempts >= 1 && call.registered && call.validation.Valid?
    requires call.replies == ((i: nat) => NoModel)
    requires Answers(retry, CircuitPolicy(0, 30.0), c, call, r)
    ensures r == Raised(NotAModel) && AfterCall(CircuitPolicy(0, 30.0), c, call, r) == Reset(c, call.tool)
  {
    SettledByItsLoop(retry, CircuitPolicy(0, 30.0), c, call, r, Unusable(0));
  }
}
