/** The retry loop around one provider, and its back-off schedule. */
module Retry {
  import opened Options

  datatype Backoff = Exponential | Linear

  /** Delays are whole milliseconds. */
  datatype Policy = Policy(maxAttempts: int, initialDelay: nat, maxDelay: nat, backoff: Backoff, jitter: bool)

  // ---------------------------------------------------------------------------------------------
  // Back-off
  // ---------------------------------------------------------------------------------------------

  function Pow2(n: nat): (p: nat)
    ensures p >= n + 1
  {
    if n == 0 then 1 else 2 * Pow2(n - 1)
  }

  function Min(a: nat, b: nat): nat {
    if a <= b then a else b
  }

  function BaseDelay(attempt: int, policy: Policy): nat {
    if attempt <= 1 then 0
    else
      var retryIndex := attempt - 2;
      var factor := if policy.backoff.Exponential? then Pow2(retryIndex) else retryIndex + 1;
      Min(policy.initialDelay * factor, policy.maxDelay)
  }

  /** Math.round for non-negative numbers. */
  function Round(x: real): int {
    (x + 0.5).Floor
  }

  /** `random` is the draw of Math.random(), at least 0 and less than 1. */
  function ApplyJitter(delay: nat, random: real): int {
    if delay == 0 then 0 else Round(delay as real * (0.8 + random * 0.4))
  }

  function CalculateDelay(attempt: int, policy: Policy, random: real): int {
    if policy.jitter then ApplyJitter(BaseDelay(attempt, policy), random) else BaseDelay(attempt, policy)
  }

  lemma MulMono(d: nat, a: nat, b: nat)
    requires a <= b
    ensures d * a <= d * b
  {
  }

  lemma {:induction false} Pow2Mono(a: nat, b: nat)
    requires a <= b
    ensures Pow2(a) <= Pow2(b)
  {
    if a < b {
      Pow2Mono(a, b - 1);
    }
  }

  /** Base delays never shrink from one attempt to a later one, and never exceed `maxDelay`. */
  lemma BaseDelayMonotone(a: int, b: int, policy: Policy)
    requires a <= b
    ensures BaseDelay(a, policy) <= BaseDelay(b, policy) <= policy.maxDelay
  {
    if a > 1 {
      Pow2Mono(a - 2, b - 2);
      MulMono(policy.initialDelay, Pow2(a - 2), Pow2(b - 2));
      MulMono(policy.initialDelay, a - 1, b - 1);
    }
  }

  /** The schedule by its steps: nothing before the first call, `initialDelay`, then twice as long or as much more. */
  lemma BaseDelaySteps(attempt: int, policy: Policy)
    ensures
      var base, cap := BaseDelay(attempt, policy), policy.maxDelay;
      && (attempt <= 1 ==> base == 0)
      && (attempt == 2 ==> base == if policy.initialDelay <= cap then policy.initialDelay else cap)
      && (attempt >= 2 ==>
            var longer := if policy.backoff.Exponential? then 2 * base else base + policy.initialDelay;
            BaseDelay(attempt + 1, policy) == if longer <= cap then longer else cap)
  {
    if attempt >= 2 && policy.backoff.Exponential? {
      TwiceAsLong(policy.initialDelay, Pow2(attempt - 2));
    } else if attempt >= 2 {
      OneMore(policy.initialDelay, attempt - 1);
    }
  }

  lemma TwiceAsLong(delay: nat, factor: nat)
    ensures delay * (2 * factor) == 2 * (delay * factor)
  {
  }

  lemma OneMore(delay: nat, factor: nat)
    ensures delay * (factor + 1) == delay * factor + delay
  {
  }

  /** With the same figures the linear schedule never waits longer than the exponential one. */
  lemma LinearBelowExponential(attempt: int, policy: Policy)
    ensures BaseDelay(attempt, policy.(backoff := Linear)) <= BaseDelay(attempt, policy.(backoff := Exponential))
  {
    if attempt > 1 {
      MulMono(policy.initialDelay, attempt - 1, Pow2(attempt - 2));
    }
  }

  /** Jitter stays within 20% either way, up to rounding. */
  lemma JitterWithinTwentyPercent(attempt: int, policy: Policy, random: real)
    requires 0.0 <= random < 1.0
    ensures
      var base := BaseDelay(attempt, policy) as real;
      Round(0.8 * base) <= CalculateDelay(attempt, policy, random) <= Round(1.2 * base)
  {
    var n := BaseDelay(attempt, policy);
    ScaledWithin(n as real, 0.8 + random * 0.4);
    ScaledWithin(n as real, 1.0);
    assert Round(n as real) == n;
    hide Round, BaseDelay;
  }

  /** With jitter the delay is the base delay scaled by a factor that goes with the draw from 0.8 to 1.2, rounded. */
  lemma JitterIsScaled(attempt: int, policy: Policy, random: real)
    requires 0.0 <= random < 1.0
    ensures
      var base, delay := BaseDelay(attempt, policy), CalculateDelay(attempt, policy, random);
      if policy.jitter then -0.5 <= delay as real - base as real * (0.8 + random * 0.4) <= 0.5 else delay == base
  {
    hide BaseDelay;
  }

  /** Some draw lifts a delay above `maxDelay`. */
  ghost predicate MayExceed(attempt: int, policy: Policy) {
    exists random: real | 0.0 <= random < 1.0 :: CalculateDelay(attempt, policy, random) > policy.maxDelay
  }

  /** The draw that takes a delay to the next whole millisecond above the cap. */
  lemma DrawAboveCap(base: nat, cap: nat) returns (random: real)
    requires base <= cap && 12 * base > 10 * cap + 5
    ensures 0.0 <= random < 1.0 && base > 0 && ApplyJitter(base, random) == cap + 1
  {
    var b, goal := base as real, cap as real + 0.5;
    var factor := goal / b;
    random := (factor - 0.8) / 0.4;
    assert b * factor == goal;
    FactorBounds(b, goal, factor);
    assert 0.8 + random * 0.4 == factor;
  }

  lemma Scaled(b: real, x: real, y: real, left: real, right: real)
    requires 0.0 < b && x < y && left == b * x && right == b * y
    ensures left < right
  {
  }

  lemma FactorBounds(b: real, goal: real, factor: real)
    requires b > 0.0 && b * factor == goal && b <= goal < 1.2 * b
    ensures 1.0 <= factor < 1.2
  {
    if factor < 1.0 {
      Scaled(b, factor, 1.0, goal, b);
    } else if factor > 1.2 {
      Scaled(b, 1.2, factor, 1.2 * b, goal);
    }
  }

  lemma RoundBelow(x: real, cap: nat)
    requires x < cap as real + 0.5
    ensures Round(x) <= cap
  {
  }

  lemma JitterBelow(base: nat, cap: nat, random: real)
    requires base <= cap && 12 * base <= 10 * cap + 5 && 0.0 <= random < 1.0
    ensures ApplyJitter(base, random) <= cap
  {
    if base > 0 {
      var b, factor := base as real, 0.8 + random * 0.4;
      Scaled(b, factor, 1.2, b * factor, 1.2 * b);
      RoundBelow(b * factor, cap);
    }
  }

  /**
  Jitter is applied after the cap, so a delay may exceed `maxDelay`: for some draw it does exactly when the policy
  jitters and 1.2 times the base delay rounds to more than the cap.
  */
  lemma MayExceedExact(attempt: int, policy: Policy)
    ensures MayExceed(attempt, policy) <==> policy.jitter && 12 * BaseDelay(attempt, policy) > 10 * policy.maxDelay + 5
  {
    var base := BaseDelay(attempt, policy);
    BaseDelayMonotone(attempt, attempt, policy);
    hide BaseDelay, ApplyJitter;
    if policy.jitter && 12 * base > 10 * policy.maxDelay + 5 {
      var random := DrawAboveCap(base, policy.maxDelay);
      assert CalculateDelay(attempt, policy, random) > policy.maxDelay;
    } else {
      forall random: real | 0.0 <= random < 1.0
        ensures CalculateDelay(attempt, policy, random) <= policy.maxDelay
      {
        if policy.jitter {
          JitterBelow(base, policy.maxDelay, random);
        }
      }
    }
  }

  lemma ScaledWithin(base: real, factor: real)
    requires 0.0 <= base && 0.8 <= factor <= 1.2
    ensures Round(0.8 * base) <= Round(base * factor) <= Round(1.2 * base)
  {
    hide Round;
    RealMulMono(base, 0.8, factor);
    RealMulMono(base, factor, 1.2);
    RoundMono(0.8 * base, base * factor);
    RoundMono(base * factor, 1.2 * base);
  }

  lemma RealMulMono(x: real, a: real, b: real)
    requires 0.0 <= x && a <= b
    ensures x * a <= x * b
  {
  }

  lemma RoundMono(x: real, y: real)
    requires x <= y
    ensures Round(x) <= Round(y)
  {
  }

  // ---------------------------------------------------------------------------------------------
  // Attempts
  // ---------------------------------------------------------------------------------------------

  const DELIVERY_REJECTED := "DELIVERY_REJECTED"
  const DELIVERY_SOFT_BOUNCE := "DELIVERY_SOFT_BOUNCE"
  const RATE_LIMITED := "RATE_LIMITED"
  const ALL_PROVIDERS_EXHAUSTED := "ALL_PROVIDERS_EXHAUSTED"

  datatype Classification = PermanentError | TransientError | RateLimitedError | SoftBounceError

  /** What one call of `deliver` does: return a result, or throw an error normalized to an EmitoError. */
  datatype Delivery =
    | Returned(success: bool, classification: Option<Classification>, error: Option<string>,
               messageId: Option<string>, invalidTokens: seq<string>)
    | Thrown(code: string, message: string, retryable: bool, retryAfter: int)

  datatype Attempt = Attempt(attempt: int, success: bool, code: Option<string>, message: Option<string>)

  datatype Verdict =
    | Delivered(messageId: Option<string>, invalidTokens: seq<string>)
    | Permanent(code: string, message: Option<string>)
    | Exhausted(code: string, reason: string, classification: Classification)

  datatype RetryResult = RetryResult(verdict: Verdict, attempts: int, history: seq<Attempt>)

  predicate IsPermanent(d: Delivery) {
    match d
    case Returned(success, classification, _, _, _) => !success && classification == Some(PermanentError)
    case Thrown(_, _, retryable, _) => !retryable
  }

  predicate IsSuccess(d: Delivery) {
    d.Returned? && d.success
  }

  /** No attempt follows this one. */
  predicate Final(d: Delivery) {
    IsSuccess(d) || IsPermanent(d)
  }

  /** The loop stops after a success, a result classified as permanent, and an error that is not retryable. */
  lemma FinalSays(d: Delivery)
    ensures Final(d) <==> if d.Returned? then d.success || d.classification == Some(PermanentError) else !d.retryable
  {
  }

  function Entry(attempt: int, d: Delivery): Attempt {
    match d
    case Returned(success, _, _, _, _) => Attempt(attempt, success, None, None)
    case Thrown(code, message, _, _) => Attempt(attempt, false, Some(code), Some(message))
  }

  /** The number of calls made: up to the first success or permanent failure, or `limit` without one. */
  function Calls(deliver: nat -> Delivery, limit: nat): (n: nat)
    ensures n <= limit
    ensures forall k: nat | k + 1 < n :: !Final(deliver(k))
    ensures n < limit ==> n > 0 && Final(deliver(n - 1))
  {
    if limit == 0 then 0
    else
      var n := Calls(deliver, limit - 1);
      if n > 0 && Final(deliver(n - 1)) then n else limit
  }

  lemma CallsUnique(deliver: nat -> Delivery, limit: nat, n: nat)
    requires n <= limit && forall k: nat | k + 1 < n :: !Final(deliver(k))
    requires n < limit ==> n > 0 && Final(deliver(n - 1))
    ensures n == Calls(deliver, limit)
  {
  }

  function History(deliver: nat -> Delivery, n: nat): seq<Attempt> {
    seq(n, k requires 0 <= k => Entry(k + 1, deliver(k)))
  }

  /** The verdict when no attempt follows. */
  function Judge(last: Delivery): Verdict {
    match last
    case Returned(success, classification, error, messageId, invalidTokens) =>
      if success then Delivered(messageId, invalidTokens)
      else if classification == Some(PermanentError) then Permanent(DELIVERY_REJECTED, error)
      else GaveUp
    case Thrown(code, message, retryable, _) =>
      if !retryable then Permanent(code, Some(message))
      else Exhausted(code, message,
                     if code == RATE_LIMITED then RateLimitedError
                     else if code == DELIVERY_SOFT_BOUNCE then SoftBounceError else TransientError)
  }

  /** What the calls amount to. */
  function Outcome(policy: Policy, deliver: nat -> Delivery): RetryResult {
    if policy.maxAttempts <= 0 then
      RetryResult(GaveUp, policy.maxAttempts, [])
    else
      var n := Calls(deliver, policy.maxAttempts);
      RetryResult(Judge(deliver(n - 1)), n, History(deliver, n))
  }

  lemma OutcomeAfter(policy: Policy, deliver: nat -> Delivery, n: nat)
    requires 1 <= n <= policy.maxAttempts && forall k: nat | k + 1 < n :: !Final(deliver(k))
    requires Final(deliver(n - 1)) || n == policy.maxAttempts
    ensures Outcome(policy, deliver) == RetryResult(Judge(deliver(n - 1)), n, History(deliver, n))
    ensures |History(deliver, n)| == n
  {
    CallsUnique(deliver, policy.maxAttempts, n);
  }

  /**
  The history is numbered 1..n with n the number of attempts made; only its last entry can be a success or a
  permanent failure; and the verdict is "exhausted" exactly when none of the first `maxAttempts` calls is either.
  */
  lemma HistoryFacts(policy: Policy, deliver: nat -> Delivery)
    requires policy.maxAttempts >= 1
    ensures
      var r := Outcome(policy, deliver);
      && 1 <= |r.history| == r.attempts <= policy.maxAttempts
      && (forall k | 0 <= k < r.attempts :: r.history[k] == Entry(k + 1, deliver(k)) && r.history[k].attempt == k + 1)
      && (forall k | 0 <= k < r.attempts - 1 :: !r.history[k].success && !Final(deliver(k)))
      && (r.verdict.Exhausted? <==> forall k: nat | k < policy.maxAttempts :: !Final(deliver(k)))
      && (r.verdict.Exhausted? ==> r.attempts == policy.maxAttempts)
      && (r.verdict.Delivered? <==> r.history[r.attempts - 1].success)
      && (r.verdict.Permanent? <==> IsPermanent(deliver(r.attempts - 1)))
  {
    var r := Outcome(policy, deliver);
    var n := Calls(deliver, policy.maxAttempts);
    if r.verdict.Exhausted? {
      forall k: nat | k < policy.maxAttempts ensures !Final(deliver(k)) {
        assert k + 1 < n || k == n - 1;
      }
    }
  }

  /** What the last call's outcome becomes. */
  ghost predicate VerdictOf(d: Delivery, verdict: Verdict) {
    match d
    case Returned(true, _, _, messageId, invalidTokens) => verdict == Delivered(messageId, invalidTokens)
    case Returned(false, Some(PermanentError), error, _, _) => verdict == Permanent("DELIVERY_REJECTED", error)
    case Returned(false, _, _, _, _) =>
      verdict == Exhausted("ALL_PROVIDERS_EXHAUSTED", "Max retries exhausted", TransientError)
    case Thrown(code, message, false, _) => verdict == Permanent(code, Some(message))
    case Thrown(code, message, true, _) =>
      && verdict.Exhausted? && verdict.code == code && verdict.reason == message
      && (verdict.classification == RateLimitedError <==> code == "RATE_LIMITED")
      && (verdict.classification == SoftBounceError <==> code == "DELIVERY_SOFT_BOUNCE")
      && verdict.classification != PermanentError
  }

  /** An entry of the history says what the call did. */
  ghost predicate EntryOf(d: Delivery, k: nat, entry: Attempt) {
    && entry.attempt == k + 1 && (entry.success <==> d.Returned? && d.success)
    && (d.Returned? ==> entry.code.None? && entry.message.None?)
    && (d.Thrown? ==> entry.code == Some(d.code) && entry.message == Some(d.message))
  }

  /** The result by the calls alone: the verdict is that of the last call made, and every call has its entry. */
  lemma OutcomeSays(policy: Policy, deliver: nat -> Delivery)
    ensures
      var r := Outcome(policy, deliver);
      && |r.history| == (if policy.maxAttempts <= 0 then 0 else Calls(deliver, policy.maxAttempts))
      && (forall k | 0 <= k < |r.history| :: EntryOf(deliver(k), k, r.history[k]))
      && (policy.maxAttempts > 0 ==> r.history != [] && VerdictOf(deliver(|r.history| - 1), r.verdict))
      && (policy.maxAttempts <= 0 ==> r.verdict.Exhausted?)
  {
  }

  /** The pause before an attempt, and the extra one a rate-limit error asks for after it. */
  function PauseBefore(attempt: int, policy: Policy, random: real): seq<int> {
    if attempt > 1 && CalculateDelay(attempt, policy, random) > 0 then [CalculateDelay(attempt, policy, random)] else []
  }

  function PauseAfter(attempt: int, policy: Policy, d: Delivery): seq<int> {
    if d.Thrown? && d.retryable && d.code == RATE_LIMITED && attempt < policy.maxAttempts && d.retryAfter > 0
    then [d.retryAfter] else []
  }

  /** The pauses taken around the first n calls. */
  function Pauses(policy: Policy, deliver: nat -> Delivery, random: nat -> real, n: nat): seq<int> {
    if n == 0 then []
    else
      Pauses(policy, deliver, random, n - 1)
      + PauseBefore(n, policy, random(n - 1)) + PauseAfter(n, policy, deliver(n - 1))
  }

  /** One call more: the back-off before it, and after a rate limit that leaves an attempt what the provider asks. */
  lemma PausesGrow(policy: Policy, deliver: nat -> Delivery, random: nat -> real, n: nat)
    ensures
      var delay := CalculateDelay(n + 1, policy, random(n));
      var d := deliver(n);
      var asks :=
        d.Thrown? && d.retryable && d.code == "RATE_LIMITED" && d.retryAfter > 0 && n + 1 < policy.maxAttempts;
      Pauses(policy, deliver, random, n + 1)
      == Pauses(policy, deliver, random, n) + (if n > 0 && delay > 0 then [delay] else [])
         + (if asks then [d.retryAfter] else [])
    ensures Pauses(policy, deliver, random, 0) == []
  {
    hide CalculateDelay;
  }

  /** Without jitter and rate limits the pauses are the base delays in order. */
  lemma {:induction false} PausesAreBaseDelays(policy: Policy, deliver: nat -> Delivery, random: nat -> real, n: nat)
    requires !policy.jitter && policy.initialDelay > 0 && policy.maxDelay > 0 && n > 0
    requires forall k: nat | k < n :: !(deliver(k).Thrown? && deliver(k).code == "RATE_LIMITED")
    ensures Pauses(policy, deliver, random, n)
            == seq(n - 1, j requires 0 <= j < n - 1 => BaseDelay(j + 2, policy) as int)
  {
    PausesGrow(policy, deliver, random, n - 1);
    if n > 1 {
      PausesAreBaseDelays(policy, deliver, random, n - 1);
      DelaysArePositive(n, policy);
    }
    hide Pauses, BaseDelay;
  }

  lemma DelaysArePositive(attempt: int, policy: Policy)
    requires policy.initialDelay > 0 && policy.maxDelay > 0 && attempt >= 2
    ensures BaseDelay(attempt, policy) > 0
    decreases attempt
  {
    if attempt > 2 {
      BaseDelaySteps(attempt - 1, policy);
      DelaysArePositive(attempt - 1, policy);
    }
  }

  predicate ShouldRetry(attempt: int, policy: Policy) {
    attempt < policy.maxAttempts
  }

  /** `deliver(k)` is what the provider's k-th call does, `random(k)` the draw for the pause before it. */
  method ExecuteWithRetry(policy: Policy, deliver: nat -> Delivery, random: nat -> real)
    returns (r: RetryResult, slept: seq<int>)
    ensures r == Outcome(policy, deliver)
    ensures slept == Pauses(policy, deliver, random, |r.history|)
  {
    var attemptHistory: seq<Attempt> := [];
    slept := [];
    var attempt := 1;
    hide Calls, Outcome, PauseBefore, PauseAfter;
    while attempt <= policy.maxAttempts
      invariant 1 <= attempt && (if policy.maxAttempts > 0 then attempt <= policy.maxAttempts + 1 else attempt == 1)
      invariant attemptHistory == History(deliver, attempt - 1)
      invariant forall k: nat | k + 1 < attempt :: !Final(deliver(k))
      invariant slept == Pauses(policy, deliver, random, attempt - 1)
      invariant attempt > policy.maxAttempts > 0 ==> Judge(deliver(attempt - 2)) == GaveUp
    {
      var before := Pause(attempt, policy, random(attempt - 1));
      var d := deliver(attempt - 1);
      var verdict, again, after := React(attempt, policy, d);
      attemptHistory := attemptHistory + [Entry(attempt, d)];
      slept := slept + before + after;
      assert attemptHistory == History(deliver, attempt);
      assert slept == Pauses(policy, deliver, random, attempt);
      if !again {
        OutcomeAfter(policy, deliver, attempt);
        return RetryResult(verdict, attempt, attemptHistory), slept;
      }
      attempt := attempt + 1;
    }
    r := RetryResult(GaveUp, policy.maxAttempts, attemptHistory);
    OutcomeGaveUp(policy, deliver, attempt - 1);
  }

  /** The verdict of a loop that ran out of attempts. */
  const GaveUp := Exhausted(ALL_PROVIDERS_EXHAUSTED, "Max retries exhausted", TransientError)

  lemma OutcomeGaveUp(policy: Policy, deliver: nat -> Delivery, n: nat)
    requires policy.maxAttempts <= 0 ==> n == 0
    requires policy.maxAttempts > 0 ==>
               n == policy.maxAttempts && Judge(deliver(n - 1)) == GaveUp && forall k: nat | k < n :: !Final(deliver(k))
    ensures Outcome(policy, deliver) == RetryResult(GaveUp, policy.maxAttempts, History(deliver, n))
    ensures |History(deliver, n)| == n
  {
    if policy.maxAttempts > 0 {
      OutcomeAfter(policy, deliver, n);
    }
  }

  /** The sleep at the head of the loop body. */
  method Pause(attempt: int, policy: Policy, random: real) returns (slept: seq<int>)
    ensures slept == PauseBefore(attempt, policy, random)
  {
    slept := [];
    if attempt > 1 {
      var delay := CalculateDelay(attempt, policy, random);
      if delay > 0 {
        slept := [delay];
      }
    }
  }

  /** The branches after one call: the verdict if the loop returns here, or another round after a requested pause. */
  method React(attempt: int, policy: Policy, d: Delivery) returns (verdict: Verdict, again: bool, slept: seq<int>)
    requires attempt <= policy.maxAttempts
    ensures verdict == Judge(d)
    ensures slept == PauseAfter(attempt, policy, d)
    ensures again ==> !Final(d) && (attempt == policy.maxAttempts ==> Judge(d) == GaveUp)
    ensures !again ==> Final(d) || attempt == policy.maxAttempts
  {
    verdict, again, slept := GaveUp, true, [];
    match d
    case Returned(success, classification, error, messageId, invalidTokens) =>
      if success {
        return Delivered(messageId, invalidTokens), false, slept;
      }
      if classification == Some(PermanentError) {
        return Permanent(DELIVERY_REJECTED, error), false, slept;
      }
    case Thrown(code, message, retryable, retryAfter) =>
      if !retryable {
        return Permanent(code, Some(message)), false, slept;
      }
      if code == RATE_LIMITED {
        if !ShouldRetry(attempt, policy) {
          return Exhausted(code, message, RateLimitedError), false, slept;
        }
        if retryAfter > 0 {
          slept := [retryAfter];
        }
        return Exhausted(code, message, RateLimitedError), true, slept;
      }
      var classification := if code == DELIVERY_SOFT_BOUNCE then SoftBounceError else TransientError;
      return Exhausted(code, message, classification), ShouldRetry(attempt, policy), slept;
  }
}
