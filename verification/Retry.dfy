/**
 * The shared retry loop around a provider call.
 *
 * Time is counted in microseconds. The provider and the clock are a script: for each attempt its outcome and the
 * two instants at which the loop looks at the clock afterwards.
 */
module Retry {
  import opened Prelude

  const SECOND: int := 1_000_000
  const MAX_RETRY_AFTER_CAP: int := 30

  datatype Outcome =
    | Success(value: string)
    | NotRetryable(message: string)
    | RateLimited(resetAt: Option<int>, retryAfter: Option<int>)
    | Retryable(message: string)
    | OtherError(message: string)

  /** `first`, `second`: the clock at the two evaluations of the wait estimate. */
  datatype Attempt = Attempt(outcome: Outcome, first: int, second: int)

  datatype Result = Returned(value: string) | Raised(error: Outcome) | RaisedNothing

  /** What the call did: attempts used, sleeps in microseconds, and publications of `rate_limit_active`. */
  datatype Trace = Trace(result: Result, calls: nat, sleeps: seq<int>, published: nat)

  /** `int(delta)` of a non-negative delta truncates; a negative one is clamped to 0 either way. */
  function EstimatedWait(e: Outcome, now: int): (wait: Option<int>)
    requires e.RateLimited?
    ensures e.resetAt.Some? && wait.Some? && e.resetAt.value >= now ==>
              wait.value * SECOND <= e.resetAt.value - now < (wait.value + 1) * SECOND
  {
    if e.resetAt.Some? then
      var delta := e.resetAt.value - now;
      Some(if delta < 0 then 0 else delta / SECOND)
    else e.retryAfter
  }

  /** The wait is unknown or longer than the loop is prepared to sleep. */
  predicate GivesUp(a: Attempt)
    requires a.outcome.RateLimited?
  {
    var wait := EstimatedWait(a.outcome, a.first);
    wait.None? || wait.value > MAX_RETRY_AFTER_CAP
  }

  function Delay(a: Attempt, retryDelay: int): int {
    if a.outcome.RateLimited? && EstimatedWait(a.outcome, a.second).Some?
    then Min((EstimatedWait(a.outcome, a.second).value + 2) * SECOND, MAX_RETRY_AFTER_CAP * SECOND)
    else retryDelay
  }

  /** An outcome after which the provider is never called again. */
  predicate Stops(a: Attempt) {
    || a.outcome.Success?
    || a.outcome.NotRetryable?
    || (a.outcome.RateLimited? && GivesUp(a))
  }

  /** The retry policy, by recursion on the attempts that are left after this one. */
  function Policy(script: seq<Attempt>, left: nat, retryDelay: int): Trace
    requires |script| > left
    decreases left
  {
    var a := script[0];
    if a.outcome.Success? then Trace(Returned(a.outcome.value), 1, [], 0)
    else if Stops(a) then Trace(Raised(a.outcome), 1, [], if a.outcome.RateLimited? then 1 else 0)
    else if left == 0 then Trace(Raised(a.outcome), 1, [], if a.outcome.RateLimited? then 1 else 0)
    else
      var rest := Policy(script[1..], left - 1, retryDelay);
      rest.(calls := rest.calls + 1, sleeps := [Delay(a, retryDelay)] + rest.sleeps)
  }

  function CallSpec(script: seq<Attempt>, maxRetries: int, retryDelay: int): Trace
    requires |script| > maxRetries
  {
    if maxRetries < 0 then Trace(RaisedNothing, 0, [], 0) else Policy(script, maxRetries, retryDelay)
  }

  /** `t`, preceded by `calls` calls and the given sleeps. */
  function Preceded(t: Trace, calls: nat, sleeps: seq<int>): Trace {
    t.(calls := calls + t.calls, sleeps := sleeps + t.sleeps)
  }

  lemma PolicyContinues(script: seq<Attempt>, at: nat, maxRetries: int, retryDelay: int, sleeps: seq<int>)
    requires at < maxRetries < |script| && !Stops(script[at])
    ensures Preceded(Policy(script[at..], maxRetries - at, retryDelay), at, sleeps) ==
            Preceded(Policy(script[at + 1..], maxRetries - at - 1, retryDelay), at + 1,
                     sleeps + [Delay(script[at], retryDelay)])
  {
    assert script[at..][1..] == script[at + 1..];
    var rest := Policy(script[at + 1..], maxRetries - at - 1, retryDelay);
    assert sleeps + ([Delay(script[at], retryDelay)] + rest.sleeps) == sleeps + [Delay(script[at], retryDelay)] + rest.sleeps;
  }

  /** The sleep before a retry: the constant backoff, or a fresh look at the provider's own estimate. */
  method NextDelay(a: Attempt, retryDelay: int) returns (delay: int)
    ensures delay == Delay(a, retryDelay)
  {
    delay := retryDelay;
    if a.outcome.RateLimited? {
      var est := EstimatedWait(a.outcome, a.second);
      if est.Some? {
        delay := Min((est.value + 2) * SECOND, MAX_RETRY_AFTER_CAP * SECOND);
      }
    }
  }

  /** The loop: `attempt` counts calls made before the current one. */
  method CallProviderWithRetry(script: seq<Attempt>, maxRetries: int, retryDelay: int) returns (trace: Trace)
    requires |script| > maxRetries
    ensures trace == CallSpec(script, maxRetries, retryDelay)
  {
    var lastExc: Option<Outcome> := None;
    var sleeps: seq<int> := [];
    var attempt := 0;
    assert script[0..] == script;
    while attempt < maxRetries + 1
      invariant 0 <= attempt <= Max(0, maxRetries + 1)
      invariant attempt <= maxRetries ==>
                  CallSpec(script, maxRetries, retryDelay) ==
                  Preceded(Policy(script[attempt..], maxRetries - attempt, retryDelay), attempt, sleeps)
      invariant attempt > maxRetries >= 0 ==>
                  lastExc.Some? &&
                  CallSpec(script, maxRetries, retryDelay) ==
                  Trace(Raised(lastExc.value), attempt, sleeps, if lastExc.value.RateLimited? then 1 else 0)
      invariant maxRetries < 0 ==> lastExc.None?
    {
      var a := script[attempt];
      assert sleeps + [] == sleeps;
      match a.outcome {
        case Success(value) =>
          return Trace(Returned(value), attempt + 1, sleeps, 0);
        case NotRetryable(_) =>
          return Trace(Raised(a.outcome), attempt + 1, sleeps, 0);
        case _ =>
      }
      lastExc := Some(a.outcome);
      if a.outcome.RateLimited? {
        var est := EstimatedWait(a.outcome, a.first);
        if est.None? || est.value > MAX_RETRY_AFTER_CAP {
          return Trace(Raised(a.outcome), attempt + 1, sleeps, 1);
        }
      }
      if attempt < maxRetries {
        PolicyContinues(script, attempt, maxRetries, retryDelay, sleeps);
        var delay := NextDelay(a, retryDelay);
        sleeps := sleeps + [delay];
      }
      attempt := attempt + 1;
    }
    if lastExc.None? {
      return Trace(RaisedNothing, 0, [], 0);
    }
    return Trace(Raised(lastExc.value), attempt, sleeps, if lastExc.value.RateLimited? then 1 else 0);
  }

  // ---------------------------------------------------------------------------
  // What the policy means
  // ---------------------------------------------------------------------------

  /** Calls end at the first stopping outcome, or when the attempts run out. */
  ghost predicate EndsAt(script: seq<Attempt>, maxRetries: nat, k: nat)
    requires |script| > maxRetries
  {
    && k <= maxRetries
    && (forall i :: 0 <= i < k ==> !Stops(script[i]))
    && (k == maxRetries || Stops(script[k]))
  }

  lemma {:induction false} PolicyMeaning(script: seq<Attempt>, maxRetries: nat, retryDelay: int) returns (k: nat)
    requires |script| > maxRetries
    ensures EndsAt(script, maxRetries, k)
    ensures var t := Policy(script, maxRetries, retryDelay);
            && t.calls == k + 1
            && t.result == (if script[k].outcome.Success? then Returned(script[k].outcome.value) else Raised(script[k].outcome))
            && t.published == (if script[k].outcome.RateLimited? then 1 else 0)
            && |t.sleeps| == k
            && (forall i :: 0 <= i < k ==> t.sleeps[i] == Delay(script[i], retryDelay))
    decreases maxRetries
  {
    if Stops(script[0]) || maxRetries == 0 {
      k := 0;
    } else {
      var j := PolicyMeaning(script[1..], maxRetries - 1, retryDelay);
      k := j + 1;
      forall i | 0 <= i < k ensures !Stops(script[i]) {
        if i > 0 { assert script[1..][i - 1] == script[i]; }
      }
    }
  }

  /**
   * At most `maxRetries + 1` calls; the first success is returned; no call follows a stopping outcome; a rate-limit
   * error escapes exactly when one publication was attempted, and otherwise none was.
   */
  lemma RetryContract(script: seq<Attempt>, maxRetries: int, retryDelay: int)
    requires |script| > maxRetries
    ensures var t := CallSpec(script, maxRetries, retryDelay);
            && t.calls <= Max(0, maxRetries + 1)
            && (t.result.Returned? ==> script[t.calls - 1].outcome == Success(t.result.value))
            && (forall i :: 0 <= i < t.calls - 1 ==> !Stops(script[i]))
            && (t.calls < maxRetries + 1 ==> t.calls > 0 && Stops(script[t.calls - 1]))
            && (t.result.Raised? ==> t.calls > 0 && t.result.error == script[t.calls - 1].outcome)
            && t.published <= 1
            && (t.published == 1 <==> t.result.Raised? && t.result.error.RateLimited?)
            && (t.result.RaisedNothing? <==> maxRetries < 0)
  {
    if maxRetries >= 0 {
      var k := PolicyMeaning(script, maxRetries, retryDelay);
    }
  }

  /**
   * What is followed by another call, as long as there are attempts left: an error that is not known to be final, and a
   * rate limit whose wait is known and less than 31 seconds, or given as at most 30.
   */
  ghost predicate TriedAgain(a: Attempt) {
    match a.outcome
    case Success(_) => false
    case NotRetryable(_) => false
    case Retryable(_) => true
    case OtherError(_) => true
    case RateLimited(resetAt, retryAfter) =>
      if resetAt.Some? then resetAt.value - a.first < 31_000_000 else retryAfter.Some? && retryAfter.value <= 30
  }

  /** Call `i` is followed by another one exactly when there are attempts left and its outcome is of that kind. */
  lemma NextCallExactly(script: seq<Attempt>, maxRetries: int, retryDelay: int, i: nat)
    requires |script| > maxRetries
    ensures var t := CallSpec(script, maxRetries, retryDelay);
            && t.calls <= Max(0, maxRetries + 1)
            && (i < t.calls ==> (i + 1 < t.calls <==> i < maxRetries && TriedAgain(script[i])))
  {
    if maxRetries >= 0 {
      var k := PolicyMeaning(script, maxRetries, retryDelay);
      assert forall j :: 0 <= j < |script| ==> (Stops(script[j]) <==> !TriedAgain(script[j]));
    }
  }

  /**
   * How long the loop sleeps after call `i`: the given delay, but after a rate limit two seconds more than the whole
   * seconds that are left by the second look at the clock, or than the number given, and 30 seconds at most.
   */
  lemma SleepsExactly(script: seq<Attempt>, maxRetries: int, retryDelay: int, i: nat)
    requires |script| > maxRetries
    ensures var t := CallSpec(script, maxRetries, retryDelay);
            && |t.sleeps| == Max(0, t.calls - 1) <= Max(0, maxRetries)
            && (i < |t.sleeps| ==>
                  match script[i].outcome
                  case RateLimited(Some(reset), _) =>
                    var left := Max(0, reset - script[i].second);
                    t.sleeps[i] == if left >= 28_000_000 then 30_000_000 else left - left % 1_000_000 + 2_000_000
                  case RateLimited(None, Some(n)) => t.sleeps[i] == 1_000_000 * if n <= 28 then n + 2 else 30
                  case _ => t.sleeps[i] == retryDelay)
  {
    if maxRetries >= 0 {
      var k := PolicyMeaning(script, maxRetries, retryDelay);
      if i < k && script[i].outcome.RateLimited? && script[i].outcome.resetAt.Some? {
        WholeSeconds(script[i], retryDelay);
      }
    }
  }

  lemma WholeSeconds(a: Attempt, retryDelay: int)
    requires a.outcome.RateLimited? && a.outcome.resetAt.Some?
    ensures var left := Max(0, a.outcome.resetAt.value - a.second);
            Delay(a, retryDelay) == if left >= 28_000_000 then 30_000_000 else left - left % 1_000_000 + 2_000_000
  {
    var left := Max(0, a.outcome.resetAt.value - a.second);
    assert left == left / SECOND * SECOND + left % SECOND;
  }

  // ---------------------------------------------------------------------------
  // Timing
  // ---------------------------------------------------------------------------

  /**
   * With a clock that does not run backwards: before a rate-limited retry the loop sleeps at least the estimate and at most 30 seconds, so the next call
   * starts at or after the reset, except that an estimate of exactly 30 leaves it less than a second early; up to an
   * estimate of 28 it starts one to two seconds after the reset.
   */
  lemma RateLimitSleep(a: Attempt, retryDelay: int)
    requires a.outcome.RateLimited? && a.first <= a.second && !GivesUp(a)
    ensures var wait := EstimatedWait(a.outcome, a.second);
            && wait.Some? && wait.value <= MAX_RETRY_AFTER_CAP
            && wait.value * SECOND <= Delay(a, retryDelay) <= MAX_RETRY_AFTER_CAP * SECOND
            && (a.outcome.resetAt.Some? && wait.value != 30 ==> a.second + Delay(a, retryDelay) >= a.outcome.resetAt.value)
            && (a.outcome.resetAt.Some? && a.second <= a.outcome.resetAt.value && wait.value <= 28 ==>
                  SECOND < a.second + Delay(a, retryDelay) - a.outcome.resetAt.value <= 2 * SECOND)
            && (a.outcome.resetAt.Some? && wait.value == 30 ==>
                  a.outcome.resetAt.value - SECOND < a.second + Delay(a, retryDelay) <= a.outcome.resetAt.value)
  {
  }

  function Total(sleeps: seq<int>): int {
    if sleeps == [] then 0 else sleeps[0] + Total(sleeps[1..])
  }

  lemma {:induction false} TotalBound(sleeps: seq<int>, bound: int)
    requires forall i :: 0 <= i < |sleeps| ==> sleeps[i] <= bound
    ensures Total(sleeps) <= |sleeps| * bound
  {
    if sleeps != [] {
      TotalBound(sleeps[1..], bound);
      assert |sleeps| * bound == bound + |sleeps[1..]| * bound;
    }
  }

  /** Total sleep is bounded by `maxRetries` times the longer of 30 seconds and the configured delay. */
  lemma TotalSleep(script: seq<Attempt>, maxRetries: nat, retryDelay: int)
    requires |script| > maxRetries
    ensures Total(CallSpec(script, maxRetries, retryDelay).sleeps) <=
            maxRetries * Max(MAX_RETRY_AFTER_CAP * SECOND, retryDelay)
  {
    var k := PolicyMeaning(script, maxRetries, retryDelay);
    var bound := Max(MAX_RETRY_AFTER_CAP * SECOND, retryDelay);
    TotalBound(CallSpec(script, maxRetries, retryDelay).sleeps, bound);
  }

  lemma {:induction false} TotalOfSame(sleeps: seq<int>, delay: int)
    requires forall i :: 0 <= i < |sleeps| ==> sleeps[i] == delay
    ensures Total(sleeps) == |sleeps| * delay
  {
    if sleeps != [] {
      TotalOfSame(sleeps[1..], delay);
      assert |sleeps| * delay == delay + |sleeps[1..]| * delay;
    }
  }

  /** Without rate limits it is exactly one delay for each call but the last. */
  lemma OrdinarySleep(script: seq<Attempt>, maxRetries: nat, retryDelay: int)
    requires |script| > maxRetries && forall i :: 0 <= i < |script| ==> !script[i].outcome.RateLimited?
    ensures var t := CallSpec(script, maxRetries, retryDelay); Total(t.sleeps) == (t.calls - 1) * retryDelay
  {
    var k := PolicyMeaning(script, maxRetries, retryDelay);
    TotalOfSame(CallSpec(script, maxRetries, retryDelay).sleeps, retryDelay);
  }
}
