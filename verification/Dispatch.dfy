/**
Dispatching one notification: provider failover around the retry loop, gated by the circuit breaker.
*/
module Dispatch {
  import opened Options
  import opened Retry
  import CB = CircuitBreaker

  /**
  What a dispatch is given and what its surroundings answer. `choose(exhausted, n)` is the strategy's n-th
  selection, `deliver(i, k)` the k-th call of provider i, `clock` the instants its breaker operations read.
  */
  datatype Env = Env(
    names: seq<string>,
    choose: (set<string>, nat) -> Option<nat>,
    deliver: (nat, nat) -> Delivery,
    random: (nat, nat) -> real,
    policy: Policy,
    clock: nat -> nat,
    breaker: Option<CB.Config>)

  function Names(env: Env): set<string> {
    set i | 0 <= i < |env.names| :: env.names[i]
  }

  /** Priority, round-robin and weighted selection all return a listed provider not yet exhausted, if there is one. */
  ghost predicate Chooses(env: Env) {
    forall exhausted: set<string>, n: nat ::
      match env.choose(exhausted, n)
      case None => Names(env) <= exhausted
      case Some(i) => i < |env.names| && env.names[i] !in exhausted
  }

  /** The first provider that is not exhausted. */
  function Priority(names: seq<string>, exhausted: set<string>, from: nat := 0): (r: Option<nat>)
    requires from <= |names| && forall i | 0 <= i < from :: names[i] in exhausted
    ensures r.Some? ==> r.value < |names| && names[r.value] !in exhausted
                        && forall i | 0 <= i < r.value :: names[i] in exhausted
    ensures r.None? ==> forall i | 0 <= i < |names| :: names[i] in exhausted
    decreases |names| - from
  {
    if from == |names| then None
    else if names[from] !in exhausted then Some(from)
    else Priority(names, exhausted, from + 1)
  }

  lemma PriorityChooses(env: Env)
    requires forall exhausted: set<string>, n: nat :: env.choose(exhausted, n) == Priority(env.names, exhausted, 0)
    ensures Chooses(env)
  {
  }

  function NameOf(env: Env, i: nat): string {
    if i < |env.names| then env.names[i] else ""
  }

  function Deliveries(env: Env, i: nat): nat -> Delivery {
    (k: nat) => env.deliver(i, k)
  }

  function Result(env: Env, i: nat): RetryResult {
    Outcome(env.policy, Deliveries(env, i))
  }

  /** The breaker's answer for a provider, and its keys and the number of clock readings afterwards. */
  function Check(env: Env, keys: map<string, CB.Key>, name: string, tick: nat): (bool, map<string, CB.Key>, nat) {
    if env.breaker.None? then (true, keys, tick)
    else
      var (k, allowed) := CB.AfterCheck(env.breaker.value, CB.KeyIn(keys, name), env.clock(tick));
      (allowed, CB.Put(keys, name, k), tick + 1)
  }

  function Recorded(cfg: CB.Config, k: CB.Key, success: bool, now: nat): CB.Key {
    if success then CB.AfterSuccess(cfg, k, now) else CB.AfterFailure(cfg, k, now)
  }

  function Record(env: Env, keys: map<string, CB.Key>, name: string, success: bool, tick: nat)
    : (map<string, CB.Key>, nat)
  {
    if env.breaker.None? then (keys, tick)
    else (keys[name := Recorded(env.breaker.value, CB.KeyIn(keys, name), success, env.clock(tick))], tick + 1)
  }

  datatype End =
    | SentBy(i: nat, messageId: Option<string>, invalidTokens: seq<string>)
    | RejectedBy(i: nat, code: string, message: Option<string>)
    | NobodyLeft

  /** The providers run, in order, how the loop ended, and the breaker's keys then. */
  datatype Trace = Trace(ran: seq<nat>, end: End, keys: map<string, CB.Key>, tick: nat) {
    function After(before: seq<nat>): Trace {
      this.(ran := before + ran)
    }
  }

  /** The failover loop. */
  function Loop(env: Env, exhausted: set<string>, n: nat, keys: map<string, CB.Key>, tick: nat): Trace
    requires Chooses(env)
    decreases Names(env) - exhausted
  {
    match env.choose(exhausted, n)
    case None => Trace([], NobodyLeft, keys, tick)
    case Some(i) =>
      var name := env.names[i];
      assert name in Names(env) - exhausted && name !in Names(env) - (exhausted + {name});
      var (allowed, keys1, tick1) := Check(env, keys, name, tick);
      if !allowed then Loop(env, exhausted + {name}, n + 1, keys1, tick1)
      else
        var verdict := Result(env, i).verdict;
        var (keys2, tick2) := Record(env, keys1, name, verdict.Delivered?, tick1);
        match verdict
        case Delivered(messageId, invalidTokens) => Trace([i], SentBy(i, messageId, invalidTokens), keys2, tick2)
        case Permanent(code, message) => Trace([i], RejectedBy(i, code, message), keys2, tick2)
        case Exhausted(_, _, _) => Loop(env, exhausted + {name}, n + 1, keys2, tick2).After([i])
  }

  // ---------------------------------------------------------------------------------------------
  // The component
  // ---------------------------------------------------------------------------------------------

  datatype DeadLetterAttempt = DeadLetterAttempt(provider: string, code: string, message: string)

  function ForDeadLetter(name: string, a: Attempt): DeadLetterAttempt {
    DeadLetterAttempt(
      name,
      if a.code.Some? then a.code.value else if a.success then "SUCCESS" else "UNKNOWN",
      if a.message.Some? then a.message.value else if a.success then "Delivery successful" else "Unknown error")
  }

  function AttemptsOf(name: string, history: seq<Attempt>): seq<DeadLetterAttempt> {
    seq(|history|, j requires 0 <= j < |history| => ForDeadLetter(name, history[j]))
  }

  /** The attempt histories of the providers run, one after the other. */
  function AllAttempts(env: Env, ran: seq<nat>): seq<DeadLetterAttempt> {
    if ran == [] then []
    else
      var last := ran[|ran| - 1];
      AllAttempts(env, ran[..|ran| - 1]) + AttemptsOf(NameOf(env, last), Result(env, last).history)
  }

  /** How often `deliver` is called when provider i runs. */
  function CallsOf(env: Env, i: nat): nat {
    if env.policy.maxAttempts <= 0 then 0 else Calls(Deliveries(env, i), env.policy.maxAttempts)
  }

  /** And when these providers run. */
  function CallsMade(env: Env, ran: seq<nat>): nat {
    if ran == [] then 0 else CallsMade(env, ran[..|ran| - 1]) + CallsOf(env, ran[|ran| - 1])
  }

  /** A collected attempt names the provider and says what the call did. */
  ghost predicate Describes(a: DeadLetterAttempt, name: string, d: Delivery) {
    && a.provider == name
    && match d
       case Thrown(code, message, _, _) => a.code == code && a.message == message
       case Returned(true, _, _, _, _) => a.code == "SUCCESS" && a.message == "Delivery successful"
       case Returned(false, _, _, _, _) => a.code == "UNKNOWN" && a.message == "Unknown error"
  }

  /** One attempt for every call made, provider after provider, each call of each. */
  ghost predicate Collected(env: Env, ran: seq<nat>, attempts: seq<DeadLetterAttempt>) {
    && |attempts| == CallsMade(env, ran)
    && forall j, k | 0 <= j < |ran| && 0 <= k < CallsOf(env, ran[j]) :: CollectedAt(env, ran, attempts, j, k)
  }

  ghost predicate CollectedAt(env: Env, ran: seq<nat>, attempts: seq<DeadLetterAttempt>, j: nat, k: nat) {
    j < |ran| &&
    var at := CallsMade(env, ran[..j]) + k;
    at < |attempts| && Describes(attempts[at], NameOf(env, ran[j]), env.deliver(ran[j], k))
  }

  lemma OneProviderSays(env: Env, i: nat)
    ensures var attempts := AttemptsOf(NameOf(env, i), Result(env, i).history);
            && |attempts| == CallsOf(env, i)
            && forall k | 0 <= k < |attempts| :: Describes(attempts[k], NameOf(env, i), env.deliver(i, k))
  {
    OutcomeSays(env.policy, Deliveries(env, i));
    var history := Result(env, i).history;
    forall k | 0 <= k < |history|
      ensures Describes(ForDeadLetter(NameOf(env, i), history[k]), NameOf(env, i), env.deliver(i, k))
    {
      assert EntryOf(Deliveries(env, i)(k), k, history[k]);
    }
    hide Outcome;
  }

  /** What is collected before stays where it is. */
  lemma CollectedMore(
    env: Env, ran: seq<nat>, i: nat, before: seq<DeadLetterAttempt>, more: seq<DeadLetterAttempt>, j: nat, k: nat)
    requires Collected(env, ran, before) && |more| == CallsOf(env, i)
    requires forall l | 0 <= l < |more| :: Describes(more[l], NameOf(env, i), env.deliver(i, l))
    requires j <= |ran| && k < CallsOf(env, (ran + [i])[j])
    ensures CollectedAt(env, ran + [i], before + more, j, k)
  {
    assert (ran + [i])[..j] == ran[..j];
    hide CallsOf, Describes;
    if j < |ran| {
      assert CollectedAt(env, ran, before, j, k);
    } else {
      assert ran[..j] == ran;
    }
  }

  /** Whatever is run, the attempts collected are exactly the calls made. */
  lemma {:induction false} EveryCallIsCollected(env: Env, ran: seq<nat>)
    ensures Collected(env, ran, AllAttempts(env, ran))
  {
    if ran != [] {
      var front, i := ran[..|ran| - 1], ran[|ran| - 1];
      var more := AttemptsOf(NameOf(env, i), Result(env, i).history);
      EveryCallIsCollected(env, front);
      OneProviderSays(env, i);
      assert ran == front + [i];
      hide AttemptsOf, CallsOf, Describes;
      forall j, k | 0 <= j < |ran| && 0 <= k < CallsOf(env, ran[j])
        ensures CollectedAt(env, ran, AllAttempts(env, ran), j, k)
      {
        CollectedMore(env, front, i, AllAttempts(env, front), more, j, k);
      }
    }
  }

  datatype DeliveryStatus =
    | Pending | Sent | Failed | Suppressed | BlockedByPreference | BlockedByConsent | BlockedByAdmin | Digested
    | OtherStatus

  /** The statuses a pending notification may move to. */
  const FROM_PENDING := {Sent, Failed, Suppressed, BlockedByPreference, BlockedByConsent, BlockedByAdmin, Digested}

  /** One attempted status update, with the attempt count it carries. */
  datatype StatusWrite = StatusWrite(status: DeliveryStatus, attempts: nat)

  datatype DispatchResult =
    | WasSuppressed
    | WasSent(provider: string, messageId: Option<string>)
    | WasRejected(provider: string, code: string, message: Option<string>)
    | WasExhausted
    | Threw // a repository write outside any try

  const DELIVERY_INVALID_ADDRESS := "DELIVERY_INVALID_ADDRESS"
  const SUPPRESSABLE := {"DELIVERY_HARD_BOUNCE", DELIVERY_INVALID_ADDRESS, "DELIVERY_SPAM_COMPLAINT"}

  /** What a dispatch answers once its loop has ended. */
  function Answer(env: Env, end: End): DispatchResult {
    match end
    case SentBy(i, messageId, _) => WasSent(NameOf(env, i), messageId)
    case RejectedBy(i, code, message) => WasRejected(NameOf(env, i), code, message)
    case NobodyLeft => WasExhausted
  }

  /** The push tokens a dispatch deactivates. */
  function Deactivated(end: End, isPush: bool, tokens: seq<string>): seq<string> {
    match end
    case SentBy(_, _, invalidTokens) => invalidTokens
    case RejectedBy(_, code, _) => if isPush && code == DELIVERY_INVALID_ADDRESS then tokens else []
    case NobodyLeft => []
  }

  /** The reasons for which a dispatch suppresses the address. */
  function Suppressions(end: End, isPush: bool): seq<string> {
    if !end.RejectedBy? || (isPush && end.code == DELIVERY_INVALID_ADDRESS) || end.code !in SUPPRESSABLE then []
    else [if end.message.Some? then end.message.value else "Permanent delivery failure"]
  }

  /** Whether a dispatch writes a dead letter or a suppression before its status. */
  predicate WritesFirst(end: End, isPush: bool) {
    end.NobodyLeft? || Suppressions(end, isPush) != []
  }

  /** The loop has run `ran` so far and stands before the n-th selection. */
  ghost predicate Ahead(
    env: Env, ran: seq<nat>, exhausted: set<string>, n: nat, keys: map<string, CB.Key>, tick: nat, goal: Trace)
    requires Chooses(env)
  {
    goal == Loop(env, exhausted, n, keys, tick).After(ran)
  }

  lemma AheadAtStart(env: Env, keys: map<string, CB.Key>)
    requires Chooses(env)
    ensures Ahead(env, [], {}, 0, keys, 0, Loop(env, {}, 0, keys, 0))
  {
    var t := Loop(env, {}, 0, keys, 0);
    assert [] + t.ran == t.ran;
  }

  lemma ChosenIsNew(env: Env, exhausted: set<string>, n: nat, i: nat)
    requires Chooses(env) && env.choose(exhausted, n) == Some(i)
    ensures NameOf(env, i) in Names(env) && NameOf(env, i) !in exhausted
  {
  }

  lemma AttemptsAppend(env: Env, ran: seq<nat>, i: nat)
    ensures AllAttempts(env, ran + [i]) == AllAttempts(env, ran) + AttemptsOf(NameOf(env, i), Result(env, i).history)
  {
    assert (ran + [i])[..|ran|] == ran;
  }

  /** The n-th selection finds nobody. */
  lemma AheadNobody(
    env: Env, ran: seq<nat>, exhausted: set<string>, n: nat, keys: map<string, CB.Key>, tick: nat, goal: Trace)
    requires Chooses(env) && Ahead(env, ran, exhausted, n, keys, tick, goal)
    requires env.choose(exhausted, n).None?
    ensures goal == Trace(ran, NobodyLeft, keys, tick)
  {
    assert ran + [] == ran;
  }

  /** The n-th selection is skipped by the breaker. */
  lemma AheadSkips(
    env: Env, ran: seq<nat>, exhausted: set<string>, n: nat, keys: map<string, CB.Key>, tick: nat, goal: Trace, i: nat)
    requires Chooses(env) && Ahead(env, ran, exhausted, n, keys, tick, goal)
    requires env.choose(exhausted, n) == Some(i) && !Check(env, keys, NameOf(env, i), tick).0
    ensures var (_, keys1, tick1) := Check(env, keys, NameOf(env, i), tick);
            Ahead(env, ran, exhausted + {NameOf(env, i)}, n + 1, keys1, tick1, goal)
  {
  }

  /** The n-th selection runs; its verdict ends the loop or exhausts the provider. */
  lemma AheadRuns(
    env: Env, ran: seq<nat>, exhausted: set<string>, n: nat, keys: map<string, CB.Key>, tick: nat, goal: Trace, i: nat)
    requires Chooses(env) && Ahead(env, ran, exhausted, n, keys, tick, goal)
    requires env.choose(exhausted, n) == Some(i) && Check(env, keys, NameOf(env, i), tick).0
    ensures
      var name := NameOf(env, i);
      var (_, keys1, tick1) := Check(env, keys, name, tick);
      var verdict := Result(env, i).verdict;
      var (keys2, tick2) := Record(env, keys1, name, verdict.Delivered?, tick1);
      match verdict
      case Delivered(messageId, invalid) => goal == Trace(ran + [i], SentBy(i, messageId, invalid), keys2, tick2)
      case Permanent(code, message) => goal == Trace(ran + [i], RejectedBy(i, code, message), keys2, tick2)
      case Exhausted(_, _, _) => Ahead(env, ran + [i], exhausted + {name}, n + 1, keys2, tick2, goal)
  {
    hide Check, Record, Outcome;
    var name := NameOf(env, i);
    var (_, keys1, tick1) := Check(env, keys, name, tick);
    var (keys2, tick2) := Record(env, keys1, name, false, tick1);
    var rest := Loop(env, exhausted + {name}, n + 1, keys2, tick2);
    assert ran + ([i] + rest.ran) == ran + [i] + rest.ran;
  }

  class Dispatcher {
    const breaker: CB.Breaker?
    var statusWrites: seq<StatusWrite>
    var deadLetters: seq<seq<DeadLetterAttempt>>
    var suppressions: seq<string>
    var deactivated: seq<string>

    constructor (breaker: CB.Breaker?)
      ensures this.breaker == breaker
      ensures statusWrites == [] && deadLetters == [] && suppressions == [] && deactivated == []
    {
      this.breaker := breaker;
      statusWrites, deadLetters, suppressions, deactivated := [], [], [], [];
    }

    ghost predicate Matches(env: Env) {
      Chooses(env) && env.breaker == if breaker == null then None else Some(breaker.cfg)
    }

    ghost function Keys(): map<string, CB.Key>
      reads breaker
    {
      if breaker == null then map[] else breaker.keys
    }

    /** The gate in front of a provider; without a breaker every provider is allowed. */
    method CheckBreaker(env: Env, name: string, tick: nat) returns (allowed: bool, tick': nat)
      requires Matches(env)
      modifies breaker
      ensures (allowed, Keys(), tick') == Check(env, old(Keys()), name, tick)
    {
      if breaker == null {
        return true, tick;
      }
      allowed := breaker.IsAllowed(name, env.clock(tick));
      tick' := tick + 1;
    }

    method RecordOutcome(env: Env, name: string, success: bool, tick: nat) returns (tick': nat)
      requires Matches(env)
      modifies breaker
      ensures (Keys(), tick') == Record(env, old(Keys()), name, success, tick)
    {
      tick' := tick;
      if breaker != null {
        if success {
          breaker.RecordSuccess(name, env.clock(tick));
        } else {
          breaker.RecordFailure(name, env.clock(tick));
        }
        tick' := tick + 1;
      }
    }

    /** The failover loop: who ran, how it ended, and the attempts collected. */
    method RunProviders(env: Env)
      returns (ghost ran: seq<nat>, end: End, allAttempts: seq<DeadLetterAttempt>)
      requires Matches(env)
      modifies breaker
      ensures var trace := Loop(env, {}, 0, old(Keys()), 0);
              ran == trace.ran && end == trace.end && Keys() == trace.keys
      ensures allAttempts == AllAttempts(env, ran)
    {
      ghost var goal := Loop(env, {}, 0, Keys(), 0);
      AheadAtStart(env, Keys());
      ran, end, allAttempts := [], NobodyLeft, [];
      assert allAttempts == AllAttempts(env, ran);
      hide Loop, AllAttempts, AttemptsOf, Ahead, Chooses, Check, Record, Names, Keys, Outcome;
      var exhausted, n, tick := {}, 0, 0;
      var ended := false;
      while !ended
        invariant allAttempts == AllAttempts(env, ran)
        invariant if ended then goal == Trace(ran, end, Keys(), tick)
                  else Ahead(env, ran, exhausted, n, Keys(), tick, goal)
        decreases !ended, Names(env) - exhausted
      {
        var provider := env.choose(exhausted, n);
        if provider.None? {
          AheadNobody(env, ran, exhausted, n, Keys(), tick, goal);
          end, ended := NobodyLeft, true;
        } else {
          var i := provider.value;
          var name := NameOf(env, i);
          ChosenIsNew(env, exhausted, n, i);
          ghost var keys, ticks := Keys(), tick;
          var allowed;
          allowed, tick := CheckBreaker(env, name, tick);
          if !allowed {
            AheadSkips(env, ran, exhausted, n, keys, ticks, goal, i);
          } else {
            AheadRuns(env, ran, exhausted, n, keys, ticks, goal, i);
            var result, _ := ExecuteWithRetry(env.policy, Deliveries(env, i), (k: nat) => env.random(i, k));
            AttemptsAppend(env, ran, i);
            allAttempts := allAttempts + AttemptsOf(name, result.history);
            ran := ran + [i];
            tick := RecordOutcome(env, name, result.verdict.Delivered?, tick);
            if result.verdict.Delivered? {
              end, ended := SentBy(i, result.verdict.messageId, result.verdict.invalidTokens), true;
            } else if result.verdict.Permanent? {
              end, ended := RejectedBy(i, result.verdict.code, result.verdict.message), true;
            }
          }
          exhausted, n := exhausted + {name}, n + 1;
        }
      }
    }

    /**
    The whole dispatch; `suppressed` is the answer of the suppression check, `tokens` those of a push. `throws` says
    that writing the dead letter or the suppression fails, which ends the dispatch before its status write.
    */
    method Dispatch(env: Env, suppressed: bool, isPush: bool, tokens: seq<string>, throws: bool)
      returns (r: DispatchResult)
      requires Matches(env)
      modifies this, breaker
      ensures suppressed ==>
                && r == WasSuppressed && statusWrites == old(statusWrites) + [StatusWrite(Suppressed, 0)]
                && deadLetters == old(deadLetters) && suppressions == old(suppressions)
                && deactivated == old(deactivated) && Keys() == old(Keys())
      ensures !suppressed ==>
                var trace := Loop(env, {}, 0, old(Keys()), 0);
                var attempts := AllAttempts(env, trace.ran);
                var stopped := throws && WritesFirst(trace.end, isPush);
                && r == (if stopped then Threw else Answer(env, trace.end)) && Keys() == trace.keys
                && deadLetters == old(deadLetters) + (if trace.end == NobodyLeft && !stopped then [attempts] else [])
                && statusWrites
                   == old(statusWrites)
                      + (if stopped then []
                         else [StatusWrite(if trace.end.SentBy? then Sent else Failed, |attempts|)])
                && suppressions == old(suppressions) + (if stopped then [] else Suppressions(trace.end, isPush))
                && deactivated == old(deactivated) + Deactivated(trace.end, isPush, tokens)
      ensures r == Threw <==>
                var end := Loop(env, {}, 0, old(Keys()), 0).end;
                !suppressed && throws && (end.NobodyLeft? || Suppressions(end, isPush) != [])
      ensures if r == Threw then statusWrites == old(statusWrites)
              else |statusWrites| == |old(statusWrites)| + 1 && statusWrites[|statusWrites| - 1].status in FROM_PENDING
    {
      if suppressed {
        statusWrites := statusWrites + [StatusWrite(Suppressed, 0)];
        return WasSuppressed;
      }
      hide *;
      var ran, end, allAttempts := RunProviders(env);
      r := Conclude(env, end, allAttempts, isPush, tokens, throws);
    }

    /** What follows the loop: dead letter, suppression or tokens, and the status. */
    method Conclude(
      env: Env, end: End, allAttempts: seq<DeadLetterAttempt>, isPush: bool, tokens: seq<string>, throws: bool)
      returns (r: DispatchResult)
      modifies this
      ensures
        var stopped := throws && WritesFirst(end, isPush);
        && r == (if stopped then Threw else Answer(env, end))
        && deadLetters == old(deadLetters) + (if end == NobodyLeft && !stopped then [allAttempts] else [])
        && statusWrites
           == old(statusWrites)
              + (if stopped then [] else [StatusWrite(if end.SentBy? then Sent else Failed, |allAttempts|)])
        && suppressions == old(suppressions) + (if stopped then [] else Suppressions(end, isPush))
        && deactivated == old(deactivated) + Deactivated(end, isPush, tokens)
      ensures r == Threw <==> throws && (end.NobodyLeft? || Suppressions(end, isPush) != [])
      ensures if r == Threw then statusWrites == old(statusWrites)
              else |statusWrites| == |old(statusWrites)| + 1 && statusWrites[|statusWrites| - 1].status in FROM_PENDING
    {
      if end == NobodyLeft {
        if throws {
          return Threw;
        }
        deadLetters := deadLetters + [allAttempts];
        statusWrites := statusWrites + [StatusWrite(Failed, |allAttempts|)];
        r := WasExhausted;
      } else if end.SentBy? {
        deactivated := deactivated + end.invalidTokens;
        statusWrites := statusWrites + [StatusWrite(Sent, |allAttempts|)];
        r := WasSent(NameOf(env, end.i), end.messageId);
      } else {
        if isPush && end.code == DELIVERY_INVALID_ADDRESS {
          deactivated := deactivated + tokens;
        } else if end.code in SUPPRESSABLE {
          if throws {
            return Threw;
          }
          var reason := if end.message.Some? then end.message.value else "Permanent delivery failure";
          suppressions := suppressions + [reason];
        }
        statusWrites := statusWrites + [StatusWrite(Failed, |allAttempts|)];
        r := WasRejected(NameOf(env, end.i), end.code, end.message);
      }
    }
  }

  // ---------------------------------------------------------------------------------------------
  // What every dispatch satisfies
  // ---------------------------------------------------------------------------------------------

  /** Different providers, none of them exhausted before, each but the last without success or permanent failure. */
  ghost predicate RanOnce(env: Env, exhausted: set<string>, ran: seq<nat>) {
    && (forall j | 0 <= j < |ran| :: ran[j] < |env.names| && NameOf(env, ran[j]) !in exhausted)
    && (forall j, l | 0 <= j < l < |ran| :: NameOf(env, ran[j]) != NameOf(env, ran[l]))
    && (forall j | 0 <= j < |ran| - 1 :: Result(env, ran[j]).verdict.Exhausted?)
  }

  /** The ending agrees with the verdict of the last provider run. */
  ghost predicate EndsRight(env: Env, trace: Trace) {
    match trace.end
    case SentBy(i, messageId, invalidTokens) =>
      && trace.ran != [] && trace.ran[|trace.ran| - 1] == i
      && Result(env, i).verdict == Delivered(messageId, invalidTokens)
    case RejectedBy(i, code, message) =>
      trace.ran != [] && trace.ran[|trace.ran| - 1] == i && Result(env, i).verdict == Permanent(code, message)
    case NobodyLeft => forall j | 0 <= j < |trace.ran| :: Result(env, trace.ran[j]).verdict.Exhausted?
  }

  /** One more provider in front of a sound rest; a skipped one changes nothing but the names left. */
  lemma RoundThenRest(env: Env, exhausted: set<string>, i: nat, rest: Trace, runs: bool)
    requires i < |env.names| && NameOf(env, i) !in exhausted && (runs ==> Result(env, i).verdict.Exhausted?)
    requires RanOnce(env, exhausted + {NameOf(env, i)}, rest.ran) && EndsRight(env, rest)
    ensures var trace := if runs then rest.After([i]) else rest;
            RanOnce(env, exhausted, trace.ran) && EndsRight(env, trace)
  {
    hide Outcome;
    forall j | 0 <= j < |rest.ran|
      ensures NameOf(env, rest.ran[j]) !in exhausted && NameOf(env, rest.ran[j]) != NameOf(env, i)
    {
      assert NameOf(env, rest.ran[j]) !in exhausted + {NameOf(env, i)};
    }
  }

  lemma LoopEnds(env: Env, exhausted: set<string>, n: nat, keys: map<string, CB.Key>, tick: nat)
    requires Chooses(env)
    requires env.choose(exhausted, n).None?
             || (Check(env, keys, NameOf(env, env.choose(exhausted, n).value), tick).0
                 && !Result(env, env.choose(exhausted, n).value).verdict.Exhausted?)
    ensures var trace := Loop(env, exhausted, n, keys, tick);
            RanOnce(env, exhausted, trace.ran) && EndsRight(env, trace)
  {
    hide Outcome, Check, Record;
    if env.choose(exhausted, n).Some? {
      ChosenIsNew(env, exhausted, n, env.choose(exhausted, n).value);
    }
  }

  /** Each provider name is run at most once, and the loop ends in exactly the way its last verdict says. */
  lemma {:induction false} EveryProviderAtMostOnce(
    env: Env, exhausted: set<string>, n: nat, keys: map<string, CB.Key>, tick: nat)
    requires Chooses(env)
    ensures var trace := Loop(env, exhausted, n, keys, tick);
            RanOnce(env, exhausted, trace.ran) && EndsRight(env, trace)
    decreases Names(env) - exhausted
  {
    hide Outcome, Check, Record, RanOnce, EndsRight;
    if env.choose(exhausted, n).None? {
      LoopEnds(env, exhausted, n, keys, tick);
    } else {
      var i := env.choose(exhausted, n).value;
      var name := NameOf(env, i);
      ChosenIsNew(env, exhausted, n, i);
      var (allowed, keys1, tick1) := Check(env, keys, name, tick);
      if !allowed {
        EveryProviderAtMostOnce(env, exhausted + {name}, n + 1, keys1, tick1);
        RoundThenRest(env, exhausted, i, Loop(env, exhausted + {name}, n + 1, keys1, tick1), false);
      } else if Result(env, i).verdict.Exhausted? {
        var (keys2, tick2) := Record(env, keys1, name, false, tick1);
        EveryProviderAtMostOnce(env, exhausted + {name}, n + 1, keys2, tick2);
        RoundThenRest(env, exhausted, i, Loop(env, exhausted + {name}, n + 1, keys2, tick2), true);
      } else {
        LoopEnds(env, exhausted, n, keys, tick);
      }
    }
  }

  /** The breaker refuses the provider at one of the dispatch's clock readings. */
  ghost predicate Refuses(env: Env, keys: map<string, CB.Key>, name: string) {
    env.breaker.Some? && exists a: nat :: RefusesAt(env, keys, name, a)
  }

  predicate RefusesAt(env: Env, keys: map<string, CB.Key>, name: string, a: nat)
    requires env.breaker.Some?
  {
    !CB.AfterCheck(env.breaker.value, CB.KeyIn(keys, name), env.clock(a)).1
  }

  /** When nobody is left, every provider name not exhausted before has run or was refused by its breaker. */
  lemma {:induction false} NobodyIsForgotten(
    env: Env, exhausted: set<string>, n: nat, keys: map<string, CB.Key>, tick: nat, name: string)
    requires Chooses(env) && name in Names(env) - exhausted && Loop(env, exhausted, n, keys, tick).end == NobodyLeft
    ensures RanNamed(env, Loop(env, exhausted, n, keys, tick).ran, name) || Refuses(env, keys, name)
    decreases Names(env) - exhausted
  {
    if env.choose(exhausted, n).Some? {
      var i := env.choose(exhausted, n).value;
      var chosen := NameOf(env, i);
      ChosenIsNew(env, exhausted, n, i);
      var allowed, ran, more, keys', tick' := LoopStep(env, exhausted, n, keys, tick, i);
      var rest := Loop(env, exhausted + {chosen}, n + 1, keys', tick');
      RanNamedFirst(env, i, rest.ran, name);
      CheckRefuses(env, keys, chosen, tick);
      if name != chosen {
        OtherKeysStay(env, keys, chosen, tick, Result(env, i).verdict.Delivered?, name);
        SameKeyRefuses(env, keys, keys', name);
        hide Loop, Outcome, Result, Check, Record, RanNamed, Refuses;
        NobodyIsForgotten(env, exhausted + {chosen}, n + 1, keys', tick', name);
      }
      hide Loop, Outcome, Result, Check, Record, RanNamed, Refuses;
    }
  }

  lemma CheckRefuses(env: Env, keys: map<string, CB.Key>, name: string, tick: nat)
    ensures !Check(env, keys, name, tick).0 ==> Refuses(env, keys, name)
  {
    hide CB.AfterCheck;
    if env.breaker.Some? && !Check(env, keys, name, tick).0 {
      assert RefusesAt(env, keys, name, tick);
    }
  }

  lemma SameKeyRefuses(env: Env, keys: map<string, CB.Key>, keys': map<string, CB.Key>, name: string)
    requires CB.KeyIn(keys, name) == CB.KeyIn(keys', name)
    ensures Refuses(env, keys', name) ==> Refuses(env, keys, name)
  {
    hide CB.AfterCheck;
    if Refuses(env, keys', name) {
      var a: nat :| RefusesAt(env, keys', name, a);
      assert RefusesAt(env, keys, name, a);
    }
  }

  function NamesOf(env: Env, ran: seq<nat>): set<string> {
    set j | 0 <= j < |ran| :: NameOf(env, ran[j])
  }

  lemma NamesOfFirst(env: Env, i: nat, rest: seq<nat>, j: nat)
    requires j <= |rest|
    ensures ([i] + rest)[..j + 1] == [i] + rest[..j]
    ensures NamesOf(env, [i] + rest[..j]) == {NameOf(env, i)} + NamesOf(env, rest[..j])
  {
    var ran := [i] + rest[..j];
    assert ran[0] == i && forall l | 0 <= l < j :: ran[l + 1] == rest[..j][l];
  }

  /** The first provider run without a breaker, and the others. */
  lemma FirstRun(env: Env, exhausted: set<string>, n: nat, keys: map<string, CB.Key>, tick: nat)
    returns (i: nat, keys': map<string, CB.Key>, tick': nat)
    requires Chooses(env) && env.breaker.None? && Loop(env, exhausted, n, keys, tick).ran != []
    ensures env.choose(exhausted, n) == Some(i)
    ensures var ran := Loop(env, exhausted, n, keys, tick).ran;
            ran == [i] || ran == [i] + Loop(env, exhausted + {NameOf(env, i)}, n + 1, keys', tick').ran
  {
    i := env.choose(exhausted, n).value;
    var allowed, runs, more;
    allowed, runs, more, keys', tick' := LoopStep(env, exhausted, n, keys, tick, i);
    assert allowed;
    hide Loop, Result, Record, Chooses;
  }

  /** Without a breaker each provider run is the one that the strategy chooses when those before it are exhausted. */
  lemma {:induction false} FollowsStrategy(
    env: Env, exhausted: set<string>, n: nat, keys: map<string, CB.Key>, tick: nat, j: nat)
    requires Chooses(env) && env.breaker.None? && j < |Loop(env, exhausted, n, keys, tick).ran|
    ensures var ran := Loop(env, exhausted, n, keys, tick).ran;
            env.choose(exhausted + NamesOf(env, ran[..j]), n + j) == Some(ran[j])
    decreases j
  {
    hide Loop, Chooses, NamesOf, NameOf;
    var ran := Loop(env, exhausted, n, keys, tick).ran;
    var i, keys', tick' := FirstRun(env, exhausted, n, keys, tick);
    if j == 0 {
      NoNames(env, exhausted, ran);
    } else {
      var name := NameOf(env, i);
      var rest := Loop(env, exhausted + {name}, n + 1, keys', tick').ran;
      FollowsStrategy(env, exhausted + {name}, n + 1, keys', tick', j - 1);
      NamesOfFirst(env, i, rest, j - 1);
      assert exhausted + {name} + NamesOf(env, rest[..j - 1]) == exhausted + ({name} + NamesOf(env, rest[..j - 1]));
    }
  }

  lemma NoNames(env: Env, exhausted: set<string>, ran: seq<nat>)
    ensures exhausted + NamesOf(env, ran[..0]) == exhausted
  {
  }

  /** What the last call of the last provider run tells the caller, and whom the dispatch tells. */
  ghost predicate Concludes(
    env: Env, ran: seq<nat>, isPush: bool, tokens: seq<string>,
    r: DispatchResult, deactivated: seq<string>, suppressed: seq<string>)
  {
    if ran == [] || CallsOf(env, ran[|ran| - 1]) == 0 then r == WasExhausted && deactivated == [] && suppressed == []
    else
      var i := ran[|ran| - 1];
      LastCallTells(env.deliver(i, CallsOf(env, i) - 1), NameOf(env, i), isPush, tokens, r, deactivated, suppressed)
  }

  ghost predicate LastCallTells(
    d: Delivery, name: string, isPush: bool, tokens: seq<string>,
    r: DispatchResult, deactivated: seq<string>, suppressed: seq<string>)
  {
    match d
    case Returned(true, _, _, messageId, invalidTokens) =>
      r == WasSent(name, messageId) && deactivated == invalidTokens && suppressed == []
    case Returned(false, Some(PermanentError), error, _, _) =>
      r == WasRejected(name, "DELIVERY_REJECTED", error) && deactivated == [] && suppressed == []
    case Thrown(code, message, false, _) =>
      && r == WasRejected(name, code, Some(message))
      && deactivated == (if isPush && code == "DELIVERY_INVALID_ADDRESS" then tokens else [])
      && suppressed == if (code == "DELIVERY_INVALID_ADDRESS" && !isPush)
                          || code in {"DELIVERY_HARD_BOUNCE", "DELIVERY_SPAM_COMPLAINT"} then [message] else []
    case _ => r == WasExhausted && deactivated == [] && suppressed == []
  }

  lemma ResultSays(env: Env, i: nat)
    ensures CallsOf(env, i) > 0 ==> VerdictOf(env.deliver(i, CallsOf(env, i) - 1), Result(env, i).verdict)
    ensures CallsOf(env, i) == 0 ==> Result(env, i).verdict.Exhausted?
  {
    OutcomeSays(env.policy, Deliveries(env, i));
    if env.policy.maxAttempts > 0 {
      var n := CallsOf(env, i);
      assert Deliveries(env, i)(n - 1) == env.deliver(i, n - 1);
    }
    hide Outcome, Calls;
  }

  /** An ending that agrees with a verdict tells what the call behind that verdict says. */
  lemma VerdictTells(env: Env, i: nat, d: Delivery, verdict: Verdict, end: End, isPush: bool, tokens: seq<string>)
    requires VerdictOf(d, verdict)
    requires match end
             case SentBy(j, messageId, invalidTokens) => j == i && verdict == Delivered(messageId, invalidTokens)
             case RejectedBy(j, code, message) => j == i && verdict == Permanent(code, message)
             case NobodyLeft => verdict.Exhausted?
    ensures LastCallTells(d, NameOf(env, i), isPush, tokens, Answer(env, end),
                          Deactivated(end, isPush, tokens), Suppressions(end, isPush))
  {
    hide NameOf;
  }

  lemma NoCallTells(env: Env, end: End, isPush: bool, tokens: seq<string>)
    requires end == NobodyLeft
    ensures Answer(env, end) == WasExhausted
    ensures Deactivated(end, isPush, tokens) == [] && Suppressions(end, isPush) == []
  {
  }

  /** The ending of a loop whose last provider has been called. */
  lemma LastCallConcludes(env: Env, trace: Trace, i: nat, isPush: bool, tokens: seq<string>)
    requires EndsRight(env, trace) && trace.ran != [] && trace.ran[|trace.ran| - 1] == i && CallsOf(env, i) > 0
    ensures LastCallTells(env.deliver(i, CallsOf(env, i) - 1), NameOf(env, i), isPush, tokens, Answer(env, trace.end),
                          Deactivated(trace.end, isPush, tokens), Suppressions(trace.end, isPush))
  {
    ResultSays(env, i);
    hide Result, CallsOf, LastCallTells, Answer, Deactivated, Suppressions, VerdictOf, NameOf;
    VerdictTells(env, i, env.deliver(i, CallsOf(env, i) - 1), Result(env, i).verdict, trace.end, isPush, tokens);
  }

  lemma NoCallEnds(env: Env, trace: Trace)
    requires EndsRight(env, trace) && (trace.ran == [] || CallsOf(env, trace.ran[|trace.ran| - 1]) == 0)
    ensures trace.end == NobodyLeft
  {
    if trace.ran != [] {
      ResultSays(env, trace.ran[|trace.ran| - 1]);
      hide Result, CallsOf;
    }
  }

  lemma TraceConcludes(env: Env, trace: Trace, isPush: bool, tokens: seq<string>)
    requires EndsRight(env, trace)
    ensures Concludes(env, trace.ran, isPush, tokens, Answer(env, trace.end),
                      Deactivated(trace.end, isPush, tokens), Suppressions(trace.end, isPush))
  {
    hide EndsRight, CallsOf, LastCallTells, Answer, Deactivated, Suppressions, NameOf;
    if trace.ran == [] || CallsOf(env, trace.ran[|trace.ran| - 1]) == 0 {
      NoCallEnds(env, trace);
      NoCallTells(env, trace.end, isPush, tokens);
    } else {
      LastCallConcludes(env, trace, trace.ran[|trace.ran| - 1], isPush, tokens);
    }
  }

  /** The loop's ending, by the calls alone. */
  lemma EndConcludes(env: Env, keys: map<string, CB.Key>, isPush: bool, tokens: seq<string>)
    requires Chooses(env)
    ensures var trace := Loop(env, {}, 0, keys, 0);
            Concludes(env, trace.ran, isPush, tokens, Answer(env, trace.end),
                      Deactivated(trace.end, isPush, tokens), Suppressions(trace.end, isPush))
  {
    hide *;
    EveryProviderAtMostOnce(env, {}, 0, keys, 0);
    TraceConcludes(env, Loop(env, {}, 0, keys, 0), isPush, tokens);
  }

  function MaxCalls(policy: Policy): nat {
    if policy.maxAttempts < 0 then 0 else policy.maxAttempts
  }

  lemma {:induction false} CallsBounded(env: Env, ran: seq<nat>)
    ensures CallsMade(env, ran) <= |ran| * MaxCalls(env.policy)
  {
    if ran != [] {
      var n := |ran| - 1;
      CallsBounded(env, ran[..n]);
      assert CallsOf(env, ran[n]) <= MaxCalls(env.policy);
      MulStep(n, MaxCalls(env.policy));
    }
  }

  lemma MulStep(n: nat, m: nat)
    ensures n * m + m == (n + 1) * m
  {
  }

  lemma {:induction false} DistinctBounded(names: seq<string>, all: set<string>)
    requires forall j | 0 <= j < |names| :: names[j] in all
    requires forall j, l | 0 <= j < l < |names| :: names[j] != names[l]
    ensures |names| <= |all|
  {
    if names != [] {
      var n := |names| - 1;
      DistinctBounded(names[..n], all - {names[n]});
    }
  }

  /** A dispatch calls `deliver` at most once per provider name and attempt; every call is collected, in order. */
  lemma DeliverCallsBounded(env: Env, keys: map<string, CB.Key>)
    requires Chooses(env)
    ensures var ran := Loop(env, {}, 0, keys, 0).ran;
            && CallsMade(env, ran) <= |Names(env)| * MaxCalls(env.policy)
            && |AllAttempts(env, ran)| == CallsMade(env, ran) && Collected(env, ran, AllAttempts(env, ran))
  {
    var ran := Loop(env, {}, 0, keys, 0).ran;
    EveryProviderAtMostOnce(env, {}, 0, keys, 0);
    var names := seq(|ran|, j requires 0 <= j < |ran| => NameOf(env, ran[j]));
    DistinctBounded(names, Names(env));
    CallsBounded(env, ran);
    MulMono(MaxCalls(env.policy), |ran|, |Names(env)|);
    hide Loop, AllAttempts, RanOnce, EndsRight;
    EveryCallIsCollected(env, ran);
  }

  /** Whether one of the providers run has this name. */
  ghost predicate RanNamed(env: Env, ran: seq<nat>, name: string) {
    ran != [] && (NameOf(env, ran[0]) == name || RanNamed(env, ran[1..], name))
  }

  lemma RanNamedFirst(env: Env, i: nat, rest: seq<nat>, name: string)
    ensures RanNamed(env, [i] + rest, name) <==> NameOf(env, i) == name || RanNamed(env, rest, name)
    ensures RanNamed(env, [] + rest, name) <==> RanNamed(env, rest, name)
  {
    assert ([i] + rest)[1..] == rest;
    assert [] + rest == rest;
  }

  /** Whether the provider with this name is the one that delivered. */
  predicate Delivers(env: Env, trace: Trace, name: string) {
    trace.end.SentBy? && NameOf(env, trace.end.i) == name
  }

  /** The loop unrolled once, around the provider it chooses. */
  lemma LoopStep(env: Env, exhausted: set<string>, n: nat, keys: map<string, CB.Key>, tick: nat, i: nat)
    returns (allowed: bool, ran: bool, more: bool, keys': map<string, CB.Key>, tick': nat)
    requires Chooses(env) && env.choose(exhausted, n) == Some(i)
    ensures
      var name := NameOf(env, i);
      var checked := Check(env, keys, name, tick);
      var recorded := Record(env, checked.1, name, Result(env, i).verdict.Delivered?, checked.2);
      && allowed == ran == checked.0
      && (more <==> !allowed || Result(env, i).verdict.Exhausted?)
      && (keys', tick') == if ran then recorded else (checked.1, checked.2)
    ensures
      var trace := Loop(env, exhausted, n, keys, tick);
      if more then
        var rest := Loop(env, exhausted + {NameOf(env, i)}, n + 1, keys', tick');
        trace == rest.After(if ran then [i] else [])
      else trace.keys == keys' && trace.ran == [i] && trace.end != NobodyLeft && trace.end.i == i
           && (trace.end.SentBy? <==> Result(env, i).verdict.Delivered?)
  {
    hide Outcome, Check, Record;
    var checked := Check(env, keys, NameOf(env, i), tick);
    allowed, ran, keys', tick' := checked.0, checked.0, checked.1, checked.2;
    if ran {
      var recorded := Record(env, checked.1, NameOf(env, i), Result(env, i).verdict.Delivered?, checked.2);
      keys', tick' := recorded.0, recorded.1;
    }
    more := !allowed || Result(env, i).verdict.Exhausted?;
    if !allowed {
      var rest := Loop(env, exhausted + {NameOf(env, i)}, n + 1, keys', tick');
      assert [] + rest.ran == rest.ran;
    }
  }

  /** The loop neither runs a provider already exhausted nor touches its key. */
  lemma {:induction false} Untouched(
    env: Env, exhausted: set<string>, n: nat, keys: map<string, CB.Key>, tick: nat, name: string)
    requires Chooses(env) && name in exhausted
    ensures var trace := Loop(env, exhausted, n, keys, tick);
            && CB.KeyIn(trace.keys, name) == CB.KeyIn(keys, name)
            && !RanNamed(env, trace.ran, name) && !Delivers(env, trace, name)
    decreases Names(env) - exhausted
  {
    if env.choose(exhausted, n).Some? {
      var i := env.choose(exhausted, n).value;
      ChosenIsNew(env, exhausted, n, i);
      var allowed, ran, more, keys', tick' := LoopStep(env, exhausted, n, keys, tick, i);
      RanNamedFirst(env, i, [], name);
      assert [i] + [] == [i];
      hide Loop, Outcome, Result, Chooses, RanNamed;
      if more {
        RanNamedFirst(env, i, Loop(env, exhausted + {NameOf(env, i)}, n + 1, keys', tick').ran, name);
        Untouched(env, exhausted + {NameOf(env, i)}, n + 1, keys', tick', name);
      }
    }
  }

  /** One check that refused, or one check that admitted and one record; `a` counts the clock readings before it. */
  ghost predicate TouchedOnce(env: Env, trace: Trace, name: string, before: CB.Key, a: nat)
    requires env.breaker.Some?
  {
    var after := CB.KeyIn(trace.keys, name);
    var (k, allowed) := CB.AfterCheck(env.breaker.value, before, env.clock(a));
    if RanNamed(env, trace.ran, name)
    then allowed && after == Recorded(env.breaker.value, k, Delivers(env, trace, name), env.clock(a + 1))
    else after == before || (!allowed && after == k)
  }

  /** After the round that chooses a provider, the rest of the loop says no more about it. */
  lemma RoundDecides(
    env: Env, exhausted: set<string>, n: nat, keys: map<string, CB.Key>, tick: nat, i: nat)
    returns (allowed: bool, keys': map<string, CB.Key>)
    requires Chooses(env) && env.choose(exhausted, n) == Some(i)
    ensures
      var name := NameOf(env, i);
      var checked := Check(env, keys, name, tick);
      var recorded := Record(env, checked.1, name, Result(env, i).verdict.Delivered?, checked.2);
      allowed == checked.0 && keys' == if allowed then recorded.0 else checked.1
    ensures
      var name := NameOf(env, i);
      var trace := Loop(env, exhausted, n, keys, tick);
      && (RanNamed(env, trace.ran, name) <==> allowed)
      && CB.KeyIn(trace.keys, name) == CB.KeyIn(keys', name)
      && (allowed ==> (Delivers(env, trace, name) <==> Result(env, i).verdict.Delivered?))
  {
    var name := NameOf(env, i);
    var ran, more, tick';
    allowed, ran, more, keys', tick' := LoopStep(env, exhausted, n, keys, tick, i);
    RanNamedFirst(env, i, [], name);
    assert [i] + [] == [i];
    hide Loop, Outcome, Result, Chooses, Check, Record, Names;
    if more {
      RanNamedFirst(env, i, Loop(env, exhausted + {name}, n + 1, keys', tick').ran, name);
      Untouched(env, exhausted + {name}, n + 1, keys', tick', name);
      hide RanNamed;
    }
  }

  /** The round that chooses the provider touches its key once, and no later round does. */
  lemma TouchedHere(
    env: Env, exhausted: set<string>, n: nat, keys: map<string, CB.Key>, tick: nat, i: nat)
    requires Chooses(env) && env.breaker.Some? && env.choose(exhausted, n) == Some(i)
    ensures var name := NameOf(env, i);
            TouchedOnce(env, Loop(env, exhausted, n, keys, tick), name, CB.KeyIn(keys, name), tick)
  {
    var allowed, keys' := RoundDecides(env, exhausted, n, keys, tick, i);
    var name := NameOf(env, i);
    KeyAfterRound(env, keys, name, tick, Result(env, i).verdict.Delivered?, name);
    CheckReadsClock(env, keys, name, tick);
    hide Loop, Outcome, Result, Chooses, Recorded, CB.AfterCheck, RanNamed, Check, Record, Names, Delivers, CB.KeyIn;
  }

  lemma CheckReadsClock(env: Env, keys: map<string, CB.Key>, name: string, tick: nat)
    requires env.breaker.Some?
    ensures Check(env, keys, name, tick).2 == tick + 1
  {
  }

  lemma NotTouched(env: Env, trace: Trace, name: string, before: CB.Key, a: nat)
    requires env.breaker.Some? && CB.KeyIn(trace.keys, name) == before && !RanNamed(env, trace.ran, name)
    ensures TouchedOnce(env, trace, name, before, a)
  {
  }

  lemma NobodyIsTouched(env: Env, exhausted: set<string>, n: nat, keys: map<string, CB.Key>, tick: nat, name: string)
    requires Chooses(env) && env.breaker.Some? && env.choose(exhausted, n).None?
    ensures TouchedOnce(env, Loop(env, exhausted, n, keys, tick), name, CB.KeyIn(keys, name), tick)
  {
    hide Outcome, Check, Record, Recorded, CB.AfterCheck, Result;
    NotTouched(env, Loop(env, exhausted, n, keys, tick), name, CB.KeyIn(keys, name), tick);
  }

  lemma TouchedAlike(env: Env, trace: Trace, rest: Trace, name: string, before: CB.Key, a: nat)
    requires env.breaker.Some? && TouchedOnce(env, rest, name, before, a) && trace.keys == rest.keys
    requires RanNamed(env, trace.ran, name) <==> RanNamed(env, rest.ran, name)
    requires Delivers(env, trace, name) <==> Delivers(env, rest, name)
    ensures TouchedOnce(env, trace, name, before, a)
  {
    hide RanNamed, Delivers, Recorded, CB.AfterCheck;
  }

  /**
  A dispatch makes exactly one breaker record for each provider it runs, however many attempts that took, and none
  for a provider that the breaker refuses or the loop never reaches.
  */
  lemma {:induction false} OneRecordPerProviderRun(
    env: Env, exhausted: set<string>, n: nat, keys: map<string, CB.Key>, tick: nat, name: string)
    returns (a: nat)
    requires Chooses(env) && env.breaker.Some? && name !in exhausted
    ensures TouchedOnce(env, Loop(env, exhausted, n, keys, tick), name, CB.KeyIn(keys, name), a)
    decreases Names(env) - exhausted
  {
    hide *;
    a := tick;
    if env.choose(exhausted, n).None? {
      NobodyIsTouched(env, exhausted, n, keys, tick, name);
    } else {
      var i := env.choose(exhausted, n).value;
      ChosenIsNew(env, exhausted, n, i);
      if NameOf(env, i) == name {
        TouchedHere(env, exhausted, n, keys, tick, i);
      } else {
        var more, keys', tick' := RoundPassesBy(env, exhausted, n, keys, tick, i, name);
        if more {
          a := OneRecordPerProviderRun(env, exhausted + {NameOf(env, i)}, n + 1, keys', tick', name);
          var rest := Loop(env, exhausted + {NameOf(env, i)}, n + 1, keys', tick');
          TouchedAlike(env, Loop(env, exhausted, n, keys, tick), rest, name, CB.KeyIn(keys, name), a);
        } else {
          NotTouched(env, Loop(env, exhausted, n, keys, tick), name, CB.KeyIn(keys, name), a);
        }
      }
    }
  }

  /** A round for one provider leaves every other to the rest of the loop. */
  lemma RoundPassesBy(
    env: Env, exhausted: set<string>, n: nat, keys: map<string, CB.Key>, tick: nat, i: nat, name: string)
    returns (more: bool, keys': map<string, CB.Key>, tick': nat)
    requires Chooses(env) && env.choose(exhausted, n) == Some(i) && NameOf(env, i) != name
    ensures CB.KeyIn(keys', name) == CB.KeyIn(keys, name)
    ensures
      var trace := Loop(env, exhausted, n, keys, tick);
      if more then
        var rest := Loop(env, exhausted + {NameOf(env, i)}, n + 1, keys', tick');
        && trace.keys == rest.keys && (RanNamed(env, trace.ran, name) <==> RanNamed(env, rest.ran, name))
        && (Delivers(env, trace, name) <==> Delivers(env, rest, name))
      else CB.KeyIn(trace.keys, name) == CB.KeyIn(keys, name) && !RanNamed(env, trace.ran, name)
  {
    var allowed, ran;
    allowed, ran, more, keys', tick' := LoopStep(env, exhausted, n, keys, tick, i);
    OtherKeysStay(env, keys, NameOf(env, i), tick, Result(env, i).verdict.Delivered?, name);
    RanNamedFirst(env, i, [], name);
    assert [i] + [] == [i];
    hide Loop, Outcome, Result, Chooses, Check, Record, Names, CB.KeyIn;
    if more {
      RanNamedFirst(env, i, Loop(env, exhausted + {NameOf(env, i)}, n + 1, keys', tick').ran, name);
      hide RanNamed;
    }
  }

  lemma OtherKeysStay(env: Env, keys: map<string, CB.Key>, chosen: string, tick: nat, success: bool, name: string)
    requires chosen != name
    ensures
      var checked := Check(env, keys, chosen, tick);
      && CB.KeyIn(checked.1, name) == CB.KeyIn(keys, name)
      && CB.KeyIn(Record(env, checked.1, chosen, success, checked.2).0, name) == CB.KeyIn(keys, name)
  {
    hide CB.AfterCheck, Recorded;
  }

  /** What one round of the loop does to a provider's key. */
  lemma KeyAfterRound(
    env: Env, keys: map<string, CB.Key>, chosen: string, tick: nat, success: bool, name: string)
    requires env.breaker.Some?
    ensures
      var (allowed, keys1, tick1) := Check(env, keys, chosen, tick);
      var keys2 := Record(env, keys1, chosen, success, tick1).0;
      var (k, admitted) := CB.AfterCheck(env.breaker.value, CB.KeyIn(keys, name), env.clock(tick));
      if chosen != name then CB.KeyIn(keys1, name) == CB.KeyIn(keys2, name) == CB.KeyIn(keys, name)
      else
        && allowed == admitted && CB.KeyIn(keys1, name) == k
        && CB.KeyIn(keys2, name) == Recorded(env.breaker.value, k, success, env.clock(tick + 1))
  {
    hide CB.AfterCheck, Recorded;
  }

  // ---------------------------------------------------------------------------------------------
  // When the circuit opens
  // ---------------------------------------------------------------------------------------------

  /** A dispatch over the single provider `name`, behind a breaker. */
  ghost predicate Alone(env: Env, name: string, cfg: CB.Config) {
    Chooses(env) && env.names == [name] && env.breaker == Some(cfg)
  }

  predicate Delivered0(env: Env) {
    Result(env, 0).verdict.Delivered?
  }

  /** A check and then a record, on a key that has not been opened. */
  lemma CheckThenRecord(cfg: CB.Config, k: CB.Key, failures: nat, at: nat, checkAt: nat, now: nat, ok: bool)
    requires CB.Counts(k, failures, at) && at <= checkAt <= now && failures < CB.Limit(cfg)
    ensures
      var (k1, allowed) := CB.AfterCheck(cfg, k, checkAt);
      var k2 := Recorded(cfg, k1, ok, now);
      var streak := CB.Extended(failures, now - at, ok);
      allowed && if streak < CB.Limit(cfg) then CB.Counts(k2, streak, now) else CB.OpenedBy(cfg, k2, streak, now)
  {
    CB.OneMoreOutcome(cfg, k, failures, at, now, ok);
  }

  /** A dispatch over one provider adds its outcome, and nothing else, to what that provider's key counts. */
  lemma OneMoreDispatch(env: Env, name: string, cfg: CB.Config, keys: map<string, CB.Key>, failures: nat, at: nat)
    requires Alone(env, name, cfg) && CB.Counts(CB.KeyIn(keys, name), failures, at)
    requires at <= env.clock(0) <= env.clock(1) && failures < CB.Limit(cfg)
    ensures
      var k := CB.KeyIn(Loop(env, {}, 0, keys, 0).keys, name);
      var streak := CB.Extended(failures, env.clock(1) - at, Delivered0(env));
      if streak < CB.Limit(cfg) then CB.Counts(k, streak, env.clock(1)) else CB.OpenedBy(cfg, k, streak, env.clock(1))
  {
    assert env.names[0] in Names(env);
    assert env.choose({}, 0) == Some(0);
    var allowed, keys' := RoundDecides(env, {}, 0, keys, 0, 0);
    KeyAfterRound(env, keys, name, 0, Delivered0(env), name);
    CheckReadsClock(env, keys, name, 0);
    CheckThenRecord(cfg, CB.KeyIn(keys, name), failures, at, env.clock(0), env.clock(1), Delivered0(env));
    hide Loop, Outcome, Result, Chooses, Recorded, CB.AfterCheck, RanNamed, Check, Record, Names, Delivers, CB.KeyIn;
    hide CB.Counts, CB.OpenedBy, CB.Extended, CB.Limit;
  }

  /** The keys after dispatches one after another. */
  ghost function KeysAfter(envs: seq<Env>, keys: map<string, CB.Key>): map<string, CB.Key>
    requires forall j | 0 <= j < |envs| :: Chooses(envs[j])
  {
    if envs == [] then keys
    else Loop(envs[|envs| - 1], {}, 0, KeysAfter(envs[..|envs| - 1], keys), 0).keys
  }

  /** The instant of the last record, if the key was last written at `at` before. */
  function LastInstant(envs: seq<Env>, at: nat): nat {
    if envs == [] then at else envs[|envs| - 1].clock(1)
  }

  /** Dispatches that do not overlap, after `at`. */
  ghost predicate InARow(envs: seq<Env>, at: nat) {
    envs != [] ==>
      var n := |envs| - 1;
      InARow(envs[..n], at) && LastInstant(envs[..n], at) <= envs[n].clock(0) <= envs[n].clock(1)
  }

  /** What the last dispatch records, and how long after the one before. */
  ghost function LastRecord(envs: seq<Env>, at: nat): CB.Outcome
    requires envs != [] && InARow(envs, at)
  {
    var n := |envs| - 1;
    CB.Outcome(envs[n].clock(1) - LastInstant(envs[..n], at), Delivered0(envs[n]))
  }

  ghost function Records(envs: seq<Env>, at: nat): (row: seq<CB.Outcome>)
    requires InARow(envs, at)
    ensures |row| == |envs|
  {
    if envs == [] then [] else Records(envs[..|envs| - 1], at) + [LastRecord(envs, at)]
  }

  /** What a key counts, or that it has just been opened, after a streak. */
  ghost predicate Tallies(cfg: CB.Config, k: CB.Key, streak: nat, at: nat) {
    if streak < CB.Limit(cfg) then CB.Counts(k, streak, at)
    else streak == CB.Limit(cfg) && CB.OpenedBy(cfg, k, streak, at)
  }

  lemma RecordsSplit(envs: seq<Env>, at: nat)
    requires envs != [] && InARow(envs, at)
    ensures var n := |envs| - 1;
            && InARow(envs[..n], at) && LastInstant(envs[..n], at) <= envs[n].clock(0) <= envs[n].clock(1)
            && Records(envs, at)[..n] == Records(envs[..n], at) && Records(envs, at)[n] == LastRecord(envs, at)
            && LastInstant(envs, at) == envs[n].clock(1)
  {
    hide LastRecord;
  }

  lemma RecordsPrefix(cfg: CB.Config, held: nat, envs: seq<Env>, at: nat)
    requires envs != [] && InARow(envs, at) && CB.NotYetOpened(cfg, held, 0, Records(envs, at))
    ensures
      var n := |envs| - 1;
      && InARow(envs[..n], at) && CB.NotYetOpened(cfg, held, 0, Records(envs[..n], at))
      && CB.Streak(held, 0, Records(envs[..n], at)) < CB.Limit(cfg)
      && CB.Streak(held, 0, Records(envs, at)) ==
         CB.Extended(CB.Streak(held, 0, Records(envs[..n], at)), LastRecord(envs, at).gap, LastRecord(envs, at).ok)
         <= CB.Limit(cfg)
  {
    hide *;
    RecordsSplit(envs, at);
    CB.NotYetOpenedPrefix(cfg, held, 0, Records(envs, at));
  }

  lemma NoDispatch(envs: seq<Env>, at: nat, held: nat, keys: map<string, CB.Key>)
    requires envs == []
    ensures LastInstant(envs, at) == at && KeysAfter(envs, keys) == keys
    ensures InARow(envs, at) && CB.Streak(held, 0, Records(envs, at)) == held
  {
  }

  lemma LaterDispatch(
    envs: seq<Env>, at: nat, name: string, cfg: CB.Config, keys: map<string, CB.Key>, failures: nat)
    requires envs != [] && InARow(envs, at) && Alone(envs[|envs| - 1], name, cfg) && failures < CB.Limit(cfg)
    requires Tallies(cfg, CB.KeyIn(keys, name), failures, LastInstant(envs[..|envs| - 1], at))
    ensures
      var last := envs[|envs| - 1];
      && CB.Extended(failures, LastRecord(envs, at).gap, LastRecord(envs, at).ok) <= CB.Limit(cfg)
      && Tallies(cfg, CB.KeyIn(Loop(last, {}, 0, keys, 0).keys, name),
                 CB.Extended(failures, LastRecord(envs, at).gap, LastRecord(envs, at).ok), last.clock(1))
  {
    var n := |envs| - 1;
    RecordsSplit(envs, at);
    OneMoreDispatch(envs[n], name, cfg, keys, failures, LastInstant(envs[..n], at));
    hide Loop;
  }

  lemma KeysAfterLast(envs: seq<Env>, keys: map<string, CB.Key>)
    requires envs != [] && forall j | 0 <= j < |envs| :: Chooses(envs[j])
    ensures var n := |envs| - 1;
            KeysAfter(envs, keys) == Loop(envs[n], {}, 0, KeysAfter(envs[..n], keys), 0).keys
  {
    hide Chooses, Loop;
  }

  /**
  With a single provider whose circuit is not open, having been closed by a probe or never opened, and over every
  sequence of dispatches that deliver, give up after retries or fail permanently: the circuit opens exactly when the
  failures it counts and the dispatches that failed since the last delivery, and since the last hour without any, reach
  the threshold.
  */
  lemma {:induction false} OpensOnThresholdthDispatch(
    envs: seq<Env>, name: string, cfg: CB.Config, keys: map<string, CB.Key>, held: nat, at: nat)
    requires CB.Counts(CB.KeyIn(keys, name), held, at) && held < CB.Limit(cfg)
    requires InARow(envs, at) && CB.NotYetOpened(cfg, held, 0, Records(envs, at))
    requires forall j | 0 <= j < |envs| :: Chooses(envs[j]) && Alone(envs[j], name, cfg)
    ensures Tallies(cfg, CB.KeyIn(KeysAfter(envs, keys), name),
                    CB.Streak(held, 0, Records(envs, at)), LastInstant(envs, at))
  {
    if envs == [] {
      NoDispatch(envs, at, held, keys);
      hide KeysAfter, CB.Counts, CB.KeyIn;
    } else {
      hide *;
      var n := |envs| - 1;
      RecordsSplit(envs, at);
      RecordsPrefix(cfg, held, envs, at);
      KeysAfterLast(envs, keys);
      OpensOnThresholdthDispatch(envs[..n], name, cfg, keys, held, at);
      LaterDispatch(envs, at, name, cfg, KeysAfter(envs[..n], keys), CB.Streak(held, 0, Records(envs[..n], at)));
    }
  }
}
