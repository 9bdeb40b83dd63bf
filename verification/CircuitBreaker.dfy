/**
The three-state circuit breaker kept in one Redis hash per provider.

Every operation reads the hash and then overwrites part of it. `Breaker` runs the operations one at a time;
`Timed` runs sequences of whole operations against a clock; `Split` interleaves reads and writes of any number
of instances.
*/
module CircuitBreaker {
  import opened Options
  import opened Clock

  datatype CircuitState = Closed | Open | HalfOpen

  datatype Config = Config(failureThreshold: int, resetTimeoutMs: nat)

  /** The hash `emito:cb:{provider}`; a field that was never written is `None`. */
  datatype Hash = Hash(state: Option<CircuitState>, failures: Option<int>, lastTransition: Option<nat>)

  const NoHash := Hash(None, None, None)

  /** The hash with the instant its TTL fires, and the instant until which the probe key exists. */
  datatype Key = Key(hash: Hash, expireAt: nat, probeUntil: nat)

  const NoKey := Key(NoHash, 0, 0)

  const RECORD_TTL_MS := 3_600_000

  function HGetAll(k: Key, now: nat): Hash {
    if now >= k.expireAt then NoHash else k.hash
  }

  function Failures(h: Hash): int {
    if h.failures.Some? then h.failures.value else 0
  }

  function StateTtlMs(cfg: Config, state: CircuitState): (ttl: nat)
    ensures if state == Closed then ttl == 3_600_000
            else cfg.resetTimeoutMs * 2 + 60_000 <= ttl < cfg.resetTimeoutMs * 2 + 61_000
  {
    if state == Closed then 3_600_000 else (CeilSeconds(cfg.resetTimeoutMs * 2) + 60) * 1000
  }

  /** What an operation writes once it has read the hash. */
  datatype Write = SetState(state: CircuitState, failures: int) | SetFailures(failures: int)

  /** The write `recordFailure` chooses for the hash it read. */
  function FailureWrite(cfg: Config, seen: Hash): Write {
    if seen.state == Some(HalfOpen) then SetState(Open, cfg.failureThreshold)
    else
      var failures := Failures(seen) + 1;
      if failures >= cfg.failureThreshold then SetState(Open, failures) else SetFailures(failures)
  }

  /** The write `recordSuccess` chooses for the hash it read. */
  function SuccessWrite(seen: Hash): Write {
    if seen.state == Some(HalfOpen) then SetState(Closed, 0) else SetFailures(0)
  }

  /** What `isAllowed` decides from the hash it read. */
  datatype Decision = Admit | Refuse | TryProbe | BeginHalfOpen

  function Decide(cfg: Config, seen: Hash, now: nat): Decision {
    match seen.state
    case None => Admit
    case Some(Closed) => Admit
    case Some(HalfOpen) => TryProbe
    case Some(Open) =>
      var since := if seen.lastTransition.Some? then seen.lastTransition.value else 0;
      if now - since >= cfg.resetTimeoutMs then BeginHalfOpen else Refuse
  }

  function Commit(cfg: Config, k: Key, w: Write, now: nat): Key {
    match w
    case SetState(state, failures) =>
      k.(hash := Hash(Some(state), Some(failures), Some(now)), expireAt := now + StateTtlMs(cfg, state))
    case SetFailures(failures) =>
      k.(hash := HGetAll(k, now).(failures := Some(failures)), expireAt := now + RECORD_TTL_MS)
  }

  function AfterFailure(cfg: Config, k: Key, now: nat): Key {
    Commit(cfg, k, FailureWrite(cfg, HGetAll(k, now)), now)
  }

  function AfterSuccess(cfg: Config, k: Key, now: nat): Key {
    Commit(cfg, k, SuccessWrite(HGetAll(k, now)), now)
  }

  /** SET probe NX EX; an EX of zero seconds is an error, which the caller treats as admission. */
  function AfterCheck(cfg: Config, k: Key, now: nat): (Key, bool) {
    match Decide(cfg, HGetAll(k, now), now)
    case Admit => (k, true)
    case Refuse => (k, false)
    case BeginHalfOpen => (Commit(cfg, k, SetState(HalfOpen, 0), now), true)
    case TryProbe =>
      var seconds := CeilSeconds(cfg.resetTimeoutMs);
      if seconds == 0 then (k, true)
      else if now < k.probeUntil then (k, false)
      else (k.(probeUntil := now + seconds * 1000), true)
  }

  /** The provider's key; a provider never written has none. */
  function KeyIn(keys: map<string, Key>, provider: string): Key {
    if provider in keys then keys[provider] else NoKey
  }

  /** The keys once a provider's key has become k; an operation that only read writes nothing. */
  function Put(keys: map<string, Key>, provider: string, k: Key): map<string, Key> {
    if k == KeyIn(keys, provider) then keys else keys[provider := k]
  }

  // ---------------------------------------------------------------------------------------------
  // The component
  // ---------------------------------------------------------------------------------------------

  class Breaker {
    const cfg: Config
    var keys: map<string, Key>

    constructor (cfg: Config)
      ensures this.cfg == cfg && keys == map[]
    {
      this.cfg, keys := cfg, map[];
    }

    method SetState(provider: string, state: CircuitState, failures: int, now: nat)
      modifies this
      ensures keys ==
              old(keys)[provider := Commit(cfg, old(KeyIn(keys, provider)), Write.SetState(state, failures), now)]
    {
      var ttlMs := if state == Closed then 3_600_000 else (CeilSeconds(cfg.resetTimeoutMs * 2) + 60) * 1000;
      var k := KeyIn(keys, provider);
      k := k.(hash := Hash(Some(state), Some(failures), Some(now)));
      k := k.(expireAt := now + ttlMs);
      keys := keys[provider := k];
    }

    method SetFailures(provider: string, failures: int, now: nat)
      modifies this
      ensures keys == old(keys)[provider := Commit(cfg, old(KeyIn(keys, provider)), Write.SetFailures(failures), now)]
    {
      var k := KeyIn(keys, provider);
      k := k.(hash := HGetAll(k, now).(failures := Some(failures)));
      k := k.(expireAt := now + RECORD_TTL_MS);
      keys := keys[provider := k];
    }

    method IsAllowed(provider: string, now: nat) returns (allowed: bool)
      modifies this
      ensures allowed == AfterCheck(cfg, old(KeyIn(keys, provider)), now).1
      ensures keys == Put(old(keys), provider, AfterCheck(cfg, old(KeyIn(keys, provider)), now).0)
    {
      var k := KeyIn(keys, provider);
      var data := HGetAll(k, now);
      if data.state == None || data.state == Some(Closed) {
        return true;
      }
      if data.state == Some(HalfOpen) {
        var seconds := CeilSeconds(cfg.resetTimeoutMs);
        if seconds == 0 {
          return true;
        }
        if now < k.probeUntil {
          return false;
        }
        keys := keys[provider := k.(probeUntil := now + seconds * 1000)];
        return true;
      }
      var elapsed := now - if data.lastTransition.Some? then data.lastTransition.value else 0;
      if elapsed >= cfg.resetTimeoutMs {
        SetState(provider, HalfOpen, 0, now);
        return true;
      }
      return false;
    }

    method RecordSuccess(provider: string, now: nat)
      modifies this
      ensures keys == old(keys)[provider := AfterSuccess(cfg, old(KeyIn(keys, provider)), now)]
    {
      var data := HGetAll(KeyIn(keys, provider), now);
      if data.state == Some(HalfOpen) {
        SetState(provider, Closed, 0, now);
      } else {
        SetFailures(provider, 0, now);
      }
    }

    method RecordFailure(provider: string, now: nat)
      modifies this
      ensures keys == old(keys)[provider := AfterFailure(cfg, old(KeyIn(keys, provider)), now)]
    {
      var data := HGetAll(KeyIn(keys, provider), now);
      if data.state == Some(HalfOpen) {
        SetState(provider, Open, cfg.failureThreshold, now);
        return;
      }
      var newFailures := Failures(data) + 1;
      if newFailures >= cfg.failureThreshold {
        SetState(provider, Open, newFailures, now);
      } else {
        SetFailures(provider, newFailures, now);
      }
    }
  }

  // ---------------------------------------------------------------------------------------------
  // Whole operations against a clock
  // ---------------------------------------------------------------------------------------------

  datatype Op = Wait(ms: nat) | Check | Success | Failure

  /**
  A provider's key, with what an observer remembers: the last stamp of "open", the last probe grant, and
  whether some admission came within the time-out of such a stamp or too soon after such a grant.
  */
  datatype Timed = Timed(
    clock: nat, key: Key,
    openedAt: Option<nat>, admittedWhileOpen: bool,
    grantedAt: Option<nat>, grantedTooSoon: bool)

  const Fresh := Timed(0, NoKey, None, false, None, false)

  predicate Within(since: Option<nat>, span: nat, now: nat) {
    since.Some? && now < since.value + span
  }

  function Next(cfg: Config, t: Timed, op: Op): Timed {
    var seen := HGetAll(t.key, t.clock);
    match op
    case Wait(ms) => t.(clock := t.clock + ms)
    case Success => t.(key := AfterSuccess(cfg, t.key, t.clock))
    case Failure =>
      t.(key := AfterFailure(cfg, t.key, t.clock),
         openedAt := if FailureWrite(cfg, seen).SetState? then Some(t.clock) else t.openedAt)
    case Check =>
      var (key, allowed) := AfterCheck(cfg, t.key, t.clock);
      var probed := allowed && Decide(cfg, seen, t.clock) == TryProbe;
      t.(key := key,
         admittedWhileOpen := t.admittedWhileOpen || (allowed && Within(t.openedAt, cfg.resetTimeoutMs, t.clock)),
         grantedAt := if probed then Some(t.clock) else t.grantedAt,
         grantedTooSoon := t.grantedTooSoon
                           || (probed && Within(t.grantedAt, CeilSeconds(cfg.resetTimeoutMs) * 1000, t.clock)))
  }

  function RunFrom(cfg: Config, start: Timed, ops: seq<Op>): Timed {
    if ops == [] then start else Next(cfg, RunFrom(cfg, start, ops[..|ops| - 1]), ops[|ops| - 1])
  }

  function Run(cfg: Config, ops: seq<Op>): Timed {
    RunFrom(cfg, Fresh, ops)
  }

  /** Until the time-out has passed the hash says "open" with the last stamp, and its TTL will not fire sooner. */
  ghost predicate WindowInv(cfg: Config, t: Timed) {
    && !t.admittedWhileOpen
    && (t.openedAt.Some? ==> t.openedAt.value <= t.clock)
    && (Within(t.openedAt, cfg.resetTimeoutMs, t.clock) ==>
          && t.key.hash.state == Some(Open)
          && t.key.hash.lastTransition == t.openedAt
          && t.openedAt.value + cfg.resetTimeoutMs <= t.key.expireAt)
  }

  lemma {:induction false} WindowHolds(cfg: Config, ops: seq<Op>)
    requires cfg.resetTimeoutMs <= RECORD_TTL_MS
    ensures WindowInv(cfg, Run(cfg, ops))
  {
    if ops != [] {
      WindowHolds(cfg, ops[..|ops| - 1]);
    }
  }

  ghost predicate ProbeInv(cfg: Config, t: Timed) {
    && !t.grantedTooSoon
    && (t.grantedAt.Some? ==> t.grantedAt.value <= t.clock)
    && (t.grantedAt.Some? && cfg.resetTimeoutMs > 0 ==>
          t.grantedAt.value + CeilSeconds(cfg.resetTimeoutMs) * 1000 <= t.key.probeUntil)
  }

  /** Admissions granted by the probe key are at least `ceil(resetTimeoutMs / 1000)` seconds apart. */
  lemma {:induction false} ProbesAreSpaced(cfg: Config, ops: seq<Op>)
    ensures !Run(cfg, ops).grantedTooSoon
    ensures ProbeInv(cfg, Run(cfg, ops))
  {
    if ops != [] {
      ProbesAreSpaced(cfg, ops[..|ops| - 1]);
    }
  }

  lemma RunFromOne(cfg: Config, start: Timed, ops: seq<Op>, op: Op)
    ensures RunFrom(cfg, start, ops + [op]) == Next(cfg, RunFrom(cfg, start, ops), op)
  {
    assert (ops + [op])[..|ops|] == ops;
  }

  lemma RunOne(cfg: Config, ops: seq<Op>, op: Op)
    ensures Run(cfg, ops + [op]) == Next(cfg, Run(cfg, ops), op)
  {
    RunFromOne(cfg, Fresh, ops, op);
  }

  /** A recorded outcome, some time after the one before. */
  datatype Outcome = Outcome(gap: nat, ok: bool)

  function OutcomeRow(row: seq<Outcome>): seq<Op> {
    if row == [] then []
    else
      var last := row[|row| - 1];
      OutcomeRow(row[..|row| - 1]) + [Wait(last.gap), if last.ok then Success else Failure]
  }

  /**
  The failures in a row at the end, if `held` were counted before, the last of them `since` ago; a success ends a
  streak, and so does an hour without a record.
  */
  function Streak(held: nat, since: nat, row: seq<Outcome>): nat {
    if row == [] then held
    else
      var n := |row| - 1;
      Extended(Streak(held, since, row[..n]), row[n].gap + (if n == 0 then since else 0), row[n].ok)
  }

  function Extended(streak: nat, gap: nat, ok: bool): nat {
    if ok then 0 else if gap >= RECORD_TTL_MS then 1 else streak + 1
  }

  /** The streak at which the circuit opens: the threshold, or the first failure when that is not positive. */
  function Limit(cfg: Config): nat {
    if cfg.failureThreshold < 1 then 1 else cfg.failureThreshold
  }

  /** No streak has reached the limit before the last outcome. */
  ghost predicate NotYetOpened(cfg: Config, held: nat, since: nat, row: seq<Outcome>) {
    forall i | 0 <= i < |row| :: Streak(held, since, row[..i]) < Limit(cfg)
  }

  lemma NotYetOpenedPrefix(cfg: Config, held: nat, since: nat, row: seq<Outcome>)
    requires row != [] && NotYetOpened(cfg, held, since, row)
    ensures var n := |row| - 1;
            && NotYetOpened(cfg, held, since, row[..n]) && Streak(held, since, row[..n]) < Limit(cfg)
            && Streak(held, since, row)
               == Extended(Streak(held, since, row[..n]), row[n].gap + (if n == 0 then since else 0), row[n].ok)
               <= Limit(cfg)
  {
    var n := |row| - 1;
    assert Streak(held, since, row[..n]) < Limit(cfg);
    assert forall i | 0 <= i < n :: row[..n][..i] == row[..i];
  }

  /** A key that has expired by `at`, or counts a streak, never opened or closed since, and was last written at `at`. */
  ghost predicate Counts(k: Key, failures: nat, at: nat) {
    || (k.expireAt <= at && failures == 0)
    || (&& k.hash.state in {None, Some(Closed)} && Failures(k.hash) == failures
        && (k.hash == NoHash || k.expireAt == at + RECORD_TTL_MS))
  }

  /** The key of a circuit opened at `at` by a streak of `failures`. */
  ghost predicate OpenedBy(cfg: Config, k: Key, failures: nat, at: nat) {
    k.hash == Hash(Some(Open), Some(failures), Some(at)) && k.expireAt == at + StateTtlMs(cfg, Open)
  }

  /** One more outcome, recorded at `now` on a key last written at `at`. */
  lemma OneMoreOutcome(cfg: Config, k: Key, failures: nat, at: nat, now: nat, ok: bool)
    requires Counts(k, failures, at) && failures < Limit(cfg) && at <= now
    ensures
      var after := if ok then AfterSuccess(cfg, k, now) else AfterFailure(cfg, k, now);
      var streak := Extended(failures, now - at, ok);
      if streak < Limit(cfg) then Counts(after, streak, now) else OpenedBy(cfg, after, streak, now)
  {
    hide StateTtlMs;
  }

  lemma OneMoreRecord(cfg: Config, t: Timed, o: Outcome, failures: nat, since: nat)
    requires since <= t.clock && Counts(t.key, failures, t.clock - since) && failures < Limit(cfg)
    ensures
      var t' := Next(cfg, Next(cfg, t, Wait(o.gap)), if o.ok then Success else Failure);
      var streak := Extended(failures, o.gap + since, o.ok);
      && t'.clock == t.clock + o.gap
      && if streak < Limit(cfg) then Counts(t'.key, streak, t'.clock) && t'.openedAt == t.openedAt
         else OpenedBy(cfg, t'.key, streak, t'.clock) && t'.openedAt == Some(t'.clock)
  {
    OneMoreOutcome(cfg, t.key, failures, t.clock - since, t.clock + o.gap, o.ok);
    hide StateTtlMs;
  }

  /** What a row of outcomes leaves: the count, or a circuit just opened. */
  ghost predicate Tallied(cfg: Config, start: Timed, t: Timed, streak: nat, at: nat) {
    if streak < Limit(cfg) then Counts(t.key, streak, at) && t.openedAt == start.openedAt
    else streak == Limit(cfg) && OpenedBy(cfg, t.key, streak, at) && t.openedAt == Some(at)
  }

  lemma TalliedMore(cfg: Config, start: Timed, t: Timed, o: Outcome, streak: nat, since: nat)
    requires since <= t.clock && Tallied(cfg, start, t, streak, t.clock - since) && streak < Limit(cfg)
    requires Extended(streak, o.gap + since, o.ok) <= Limit(cfg)
    ensures
      var t' := Next(cfg, Next(cfg, t, Wait(o.gap)), if o.ok then Success else Failure);
      Tallied(cfg, start, t', Extended(streak, o.gap + since, o.ok), t'.clock)
  {
    OneMoreRecord(cfg, t, o, streak, since);
    hide Next, Counts, OpenedBy;
  }

  /**
  From every key that is absent, unopened or closed, whatever it counts, and for every sequence of successes and
  failures, however spaced, whose streaks have stayed below the limit so far: the stored count is the streak at its end,
  and the circuit opens exactly when that streak reaches the limit.
  */
  lemma {:induction false} OpensAtThreshold(cfg: Config, start: Timed, held: nat, since: nat, row: seq<Outcome>)
    requires since <= start.clock && Counts(start.key, held, start.clock - since) && held < Limit(cfg)
    requires NotYetOpened(cfg, held, since, row)
    ensures var t := RunFrom(cfg, start, OutcomeRow(row));
            && t.clock >= start.clock
            && Tallied(cfg, start, t, Streak(held, since, row), if row == [] then t.clock - since else t.clock)
  {
    if row == [] {
      hide Counts;
    } else {
      hide *;
      var n := |row| - 1;
      NotYetOpenedPrefix(cfg, held, since, row);
      OpensAtThreshold(cfg, start, held, since, row[..n]);
      RowMore(cfg, start, row);
      var t := RunFrom(cfg, start, OutcomeRow(row[..n]));
      TalliedMore(cfg, start, t, row[n], Streak(held, since, row[..n]), if n == 0 then since else 0);
    }
  }

  /** The last outcome of a row. */
  lemma RowMore(cfg: Config, start: Timed, row: seq<Outcome>)
    requires row != []
    ensures var n := |row| - 1;
            var t, last := RunFrom(cfg, start, OutcomeRow(row[..n])), if row[n].ok then Success else Failure;
            && RunFrom(cfg, start, OutcomeRow(row)) == Next(cfg, Next(cfg, t, Wait(row[n].gap)), last)
            && RunFrom(cfg, start, OutcomeRow(row)).clock >= t.clock
            && (n == 0 ==> t == start)
  {
    var n := |row| - 1;
    var before := OutcomeRow(row[..n]);
    var last := if row[n].ok then Success else Failure;
    assert OutcomeRow(row) == before + [Wait(row[n].gap), last] && (n == 0 ==> before == []);
    hide OutcomeRow;
    assert before + [Wait(row[n].gap)] + [last] == before + [Wait(row[n].gap), last];
    assert n == 0 ==> RunFrom(cfg, start, before) == start;
    hide RunFrom;
    RunFromOne(cfg, start, before, Wait(row[n].gap));
    RunFromOne(cfg, start, before + [Wait(row[n].gap)], last);
    RecordKeepsTime(cfg, RunFrom(cfg, start, before), row[n].gap, row[n].ok);
    hide Next;
  }

  lemma RecordKeepsTime(cfg: Config, t: Timed, gap: nat, ok: bool)
    ensures Next(cfg, Next(cfg, t, Wait(gap)), if ok then Success else Failure).clock == t.clock + gap
  {
    hide AfterSuccess, AfterFailure, FailureWrite;
  }

  /** The instant of a key's last write, where it counts. */
  function LastWrite(k: Key): nat {
    if k.expireAt < RECORD_TTL_MS then 0 else k.expireAt - RECORD_TTL_MS
  }

  /** A circuit that is not open or half-open counts what its key holds. */
  ghost predicate CountInv(cfg: Config, t: Timed) {
    t.key.hash.state in {None, Some(Closed)} ==>
      && 0 <= Failures(t.key.hash) < Limit(cfg) && LastWrite(t.key) <= t.clock
      && Counts(t.key, Failures(t.key.hash), LastWrite(t.key))
  }

  lemma {:induction false} RunCounts(cfg: Config, ops: seq<Op>)
    ensures CountInv(cfg, Run(cfg, ops))
  {
    if ops != [] {
      RunCounts(cfg, ops[..|ops| - 1]);
      NextCounts(cfg, Run(cfg, ops[..|ops| - 1]), ops[|ops| - 1]);
      hide CountInv, Next;
    }
  }

  lemma NextCounts(cfg: Config, t: Timed, op: Op)
    requires CountInv(cfg, t)
    ensures CountInv(cfg, Next(cfg, t, op))
  {
  }

  /** What a check would see counted, and for how long. */
  function Held(t: Timed): int {
    Failures(HGetAll(t.key, t.clock))
  }

  function HeldSince(t: Timed): int {
    if t.clock >= t.key.expireAt then 0 else t.clock - LastWrite(t.key)
  }

  /**
  Over whole runs: wherever a check would see no state or a closed one, after a probe has closed the circuit as before
  it ever opened, the failures in a row from then on, with those it counts, open it exactly when they reach the limit.
  */
  lemma OpensAgain(cfg: Config, ops: seq<Op>, row: seq<Outcome>)
    requires var s := Run(cfg, ops); HGetAll(s.key, s.clock).state in {None, Some(Closed)}
    ensures
      var s := Run(cfg, ops);
      && 0 <= Held(s) < Limit(cfg) && 0 <= HeldSince(s) <= s.clock
      && (NotYetOpened(cfg, Held(s), HeldSince(s), row) ==>
            var t := RunFrom(cfg, s, OutcomeRow(row));
            && t.clock >= s.clock
            && Tallied(cfg, s, t, Streak(Held(s), HeldSince(s), row),
                       if row == [] then t.clock - HeldSince(s) else t.clock))
  {
    var s := Run(cfg, ops);
    RunCounts(cfg, ops);
    hide Run, RunFrom, NotYetOpened, Tallied, Streak;
    if NotYetOpened(cfg, Held(s), HeldSince(s), row) {
      OpensAtThreshold(cfg, s, Held(s), HeldSince(s), row);
    }
  }

  function FailuresOnly(n: nat): seq<Outcome> {
    seq(n, _ => Outcome(0, false))
  }

  lemma {:induction false} StreakOfFailures(n: nat)
    ensures Streak(0, 0, FailuresOnly(n)) == n
  {
    if n > 0 {
      StreakOfFailures(n - 1);
      assert FailuresOnly(n)[..n - 1] == FailuresOnly(n - 1);
    }
  }

  lemma {:induction false} FailuresTakeNoTime(cfg: Config, n: nat)
    ensures var t := Run(cfg, OutcomeRow(FailuresOnly(n))); t.clock == 0 && t.key.probeUntil == 0
  {
    if n > 0 {
      FailuresTakeNoTime(cfg, n - 1);
      assert FailuresOnly(n)[..n - 1] == FailuresOnly(n - 1);
      var before := OutcomeRow(FailuresOnly(n - 1));
      RunOne(cfg, before, Wait(0));
      RunOne(cfg, before + [Wait(0)], Failure);
      assert before + [Wait(0)] + [Failure] == OutcomeRow(FailuresOnly(n));
    }
  }

  /** Failures alone open the circuit at once. */
  lemma OpenAtOnce(cfg: Config) returns (ops: seq<Op>)
    ensures var t := Run(cfg, ops);
            OpenedBy(cfg, t.key, Limit(cfg), 0) && t.openedAt == Some(0) && t.clock == 0 && t.key.probeUntil == 0
  {
    var row := FailuresOnly(Limit(cfg));
    forall i | 0 <= i < |row| ensures Streak(0, 0, row[..i]) < Limit(cfg) {
      assert row[..i] == FailuresOnly(i);
      StreakOfFailures(i);
    }
    StreakOfFailures(Limit(cfg));
    OpensAtThreshold(cfg, Fresh, 0, 0, row);
    FailuresTakeNoTime(cfg, Limit(cfg));
    ops := OutcomeRow(row);
  }

  ghost predicate OpenIsHonoured(cfg: Config) {
    forall ops :: !Run(cfg, ops).admittedWhileOpen
  }

  /** A success recorded while open shortens the TTL to an hour, after which the hash is gone. */
  lemma LongTimeoutAdmitsEarly(cfg: Config)
    requires cfg.resetTimeoutMs > RECORD_TTL_MS
    ensures !OpenIsHonoured(cfg)
  {
    var ops := OpenAtOnce(cfg);
    RunOne(cfg, ops, Success);
    RunOne(cfg, ops + [Success], Wait(RECORD_TTL_MS));
    RunOne(cfg, ops + [Success] + [Wait(RECORD_TTL_MS)], Check);
    assert Run(cfg, ops + [Success] + [Wait(RECORD_TTL_MS)] + [Check]).admittedWhileOpen;
  }

  /**
  No request is admitted within the time-out of the last stamp of "open", over all runs, exactly when the
  time-out is at most the one-hour TTL that recording an outcome gives the key.
  */
  lemma OpenWindowExact(cfg: Config)
    ensures OpenIsHonoured(cfg) <==> cfg.resetTimeoutMs <= RECORD_TTL_MS
  {
    if cfg.resetTimeoutMs <= RECORD_TTL_MS {
      forall ops ensures !Run(cfg, ops).admittedWhileOpen {
        WindowHolds(cfg, ops);
      }
    } else {
      LongTimeoutAdmitsEarly(cfg);
    }
  }

  /** The check at this instant finds an open circuit past its time-out and moves it to half-open. */
  predicate Transitions(cfg: Config, t: Timed) {
    Decide(cfg, HGetAll(t.key, t.clock), t.clock) == BeginHalfOpen
  }

  /**
  At the transition three checks in one instant admit the first, refuse the third, and admit the second exactly when
  nobody holds the probe key.
  */
  lemma TwoProbes(cfg: Config, t: Timed)
    requires cfg.resetTimeoutMs > 0 && Transitions(cfg, t)
    ensures
      var (first, admitted1) := AfterCheck(cfg, t.key, t.clock);
      var (second, admitted2) := AfterCheck(cfg, first, t.clock);
      var (_, admitted3) := AfterCheck(cfg, second, t.clock);
      && admitted1 && (admitted2 <==> t.key.probeUntil <= t.clock) && !admitted3
      && second.hash.state == Some(HalfOpen)
  {
    assert StateTtlMs(cfg, HalfOpen) > 0;
  }

  /** The key after checks at these instants, and how many of them were admitted. */
  function AfterChecks(cfg: Config, k: Key, times: seq<nat>): (Key, nat) {
    if times == [] then (k, 0)
    else
      var (before, n) := AfterChecks(cfg, k, times[..|times| - 1]);
      var (after, admitted) := AfterCheck(cfg, before, times[|times| - 1]);
      (after, if admitted then n + 1 else n)
  }

  /** Instants one after another, from the transition on, before the half-open hash expires. */
  ghost predicate InSpell(k: Key, now: nat, times: seq<nat>) {
    && (forall i | 0 <= i < |times| :: now <= times[i] < k.expireAt)
    && (forall i, j | 0 <= i < j < |times| :: times[i] <= times[j])
  }

  /** A half-open key whose probe key nobody has renewed. */
  lemma {:induction false} NobodyProbes(cfg: Config, k: Key, now: nat, times: seq<nat>)
    requires k.hash.state == Some(HalfOpen) && InSpell(k, now, times)
    ensures var (after, n) := AfterChecks(cfg, k, times);
            n == 0 <==> times == [] || (cfg.resetTimeoutMs > 0 && times[|times| - 1] < k.probeUntil)
    ensures var (after, n) := AfterChecks(cfg, k, times);
            after.hash == k.hash && after.expireAt == k.expireAt && (n == 0 ==> after == k)
  {
    if times != [] {
      NobodyProbes(cfg, k, now, times[..|times| - 1]);
    }
  }

  /**
  The single probe, over a whole half-open spell: the transition admits one request, and of any further checks, whenever
  they come before the hash expires, none is admitted exactly when there is none or the last of them still finds the
  probe key of an earlier spell.
  */
  lemma SingleProbeExact(cfg: Config, t: Timed, times: seq<nat>)
    requires Transitions(cfg, t) && InSpell(AfterCheck(cfg, t.key, t.clock).0, t.clock, times)
    ensures
      var (begun, admitted) := AfterCheck(cfg, t.key, t.clock);
      && admitted && begun.hash == Hash(Some(HalfOpen), Some(0), Some(t.clock))
      && (AfterChecks(cfg, begun, times).1 == 0
          <==> times == [] || (cfg.resetTimeoutMs > 0 && times[|times| - 1] < t.key.probeUntil))
  {
    NobodyProbes(cfg, AfterCheck(cfg, t.key, t.clock).0, t.clock, times);
  }

  /** The probe key lasts no longer than its rounded time-out, counted from the last stamp of "open" or from now. */
  ghost predicate ProbeBound(cfg: Config, t: Timed) {
    && t.key.probeUntil <= t.clock + CeilSeconds(cfg.resetTimeoutMs) * 1000
    && (t.key.hash.state == Some(Open) ==>
          && t.key.hash.lastTransition.Some? && t.key.hash.lastTransition.value <= t.clock
          && t.key.probeUntil <= t.key.hash.lastTransition.value + CeilSeconds(cfg.resetTimeoutMs) * 1000)
    && (cfg.resetTimeoutMs == 0 ==> t.key.probeUntil == 0)
  }

  lemma NextKeepsProbeBound(cfg: Config, t: Timed, op: Op)
    requires ProbeBound(cfg, t)
    ensures ProbeBound(cfg, Next(cfg, t, op))
  {
    hide StateTtlMs;
  }

  lemma {:induction false} ProbesAreBounded(cfg: Config, ops: seq<Op>)
    ensures ProbeBound(cfg, Run(cfg, ops))
  {
    if ops != [] {
      ProbesAreBounded(cfg, ops[..|ops| - 1]);
      hide ProbeBound, Next;
      NextKeepsProbeBound(cfg, Run(cfg, ops[..|ops| - 1]), ops[|ops| - 1]);
    }
  }

  /** In some run a transition to half-open finds the probe key of an earlier half-open spell still held. */
  ghost predicate ProbeOutlivesSpell(cfg: Config) {
    exists ops :: Transitions(cfg, Run(cfg, ops)) && Run(cfg, ops).clock < Run(cfg, ops).key.probeUntil
  }

  /** Open, half-open, probe granted, reopened, and open for the time-out again. */
  lemma ProbeReturns(cfg: Config) returns (ops: seq<Op>)
    requires cfg.resetTimeoutMs > 0
    ensures var t := Run(cfg, ops);
            && Transitions(cfg, t) && t.clock == 2 * cfg.resetTimeoutMs
            && t.key.probeUntil == cfg.resetTimeoutMs + CeilSeconds(cfg.resetTimeoutMs) * 1000
  {
    var w := cfg.resetTimeoutMs;
    ops := OpenAtOnce(cfg);
    var t0 := Run(cfg, ops);
    RunOne(cfg, ops, Wait(w));
    RunOne(cfg, ops + [Wait(w)], Check);
    ops := ops + [Wait(w)] + [Check];
    hide Run;
    var t1 := Next(cfg, Next(cfg, t0, Wait(w)), Check);
    assert t1.key.hash.state == Some(HalfOpen) && t1.clock == w && t1.key.probeUntil == t0.key.probeUntil;
    ProbeAfterReopening(cfg, ops, t1);
    ops := ops + [Check] + [Failure] + [Wait(w)];
  }

  lemma ProbeAfterReopening(cfg: Config, ops: seq<Op>, t: Timed)
    requires Run(cfg, ops) == t && cfg.resetTimeoutMs > 0
    requires t.key.hash.state == Some(HalfOpen) && t.clock < t.key.expireAt && t.key.probeUntil <= t.clock
    ensures var t' := Run(cfg, ops + [Check] + [Failure] + [Wait(cfg.resetTimeoutMs)]);
            && Transitions(cfg, t') && t'.clock == t.clock + cfg.resetTimeoutMs
            && t'.key.probeUntil == t.clock + CeilSeconds(cfg.resetTimeoutMs) * 1000
  {
    RunOne(cfg, ops, Check);
    RunOne(cfg, ops + [Check], Failure);
    RunOne(cfg, ops + [Check] + [Failure], Wait(cfg.resetTimeoutMs));
  }

  /** Over all runs: a probe key is ever still held at a transition exactly when the time-out is not whole seconds. */
  lemma ProbeHeldExact(cfg: Config)
    ensures ProbeOutlivesSpell(cfg) <==> cfg.resetTimeoutMs % 1000 != 0
  {
    if cfg.resetTimeoutMs % 1000 != 0 {
      var ops := ProbeReturns(cfg);
      assert Run(cfg, ops).clock < Run(cfg, ops).key.probeUntil;
    } else {
      forall ops | Transitions(cfg, Run(cfg, ops)) ensures Run(cfg, ops).key.probeUntil <= Run(cfg, ops).clock {
        ProbesAreBounded(cfg, ops);
      }
    }
  }

  // ---------------------------------------------------------------------------------------------
  // Reads and writes of any number of instances, interleaved
  // ---------------------------------------------------------------------------------------------

  type Instance = nat

  /** The stored hash and the write each busy instance has decided on from an earlier read. */
  datatype Split = Split(hash: Hash, pending: map<Instance, Write>)

  datatype SplitStep =
    | ReadForSuccess(i: Instance)
    | ReadForFailure(i: Instance)
    | ReadForCheck(i: Instance, now: nat)
    | Flush(i: Instance, now: nat)
    | Lapse

  predicate SplitEnabled(s: Split, step: SplitStep) {
    match step
    case ReadForSuccess(i) => i !in s.pending
    case ReadForFailure(i) => i !in s.pending
    case ReadForCheck(i, _) => i !in s.pending
    case Flush(i, _) => i in s.pending
    case Lapse => true
  }

  function Overwrite(h: Hash, w: Write, now: nat): Hash {
    match w
    case SetState(state, failures) => Hash(Some(state), Some(failures), Some(now))
    case SetFailures(failures) => h.(failures := Some(failures))
  }

  function SplitNext(cfg: Config, s: Split, step: SplitStep): Split
    requires SplitEnabled(s, step)
  {
    match step
    case ReadForSuccess(i) => s.(pending := s.pending[i := SuccessWrite(s.hash)])
    case ReadForFailure(i) => s.(pending := s.pending[i := FailureWrite(cfg, s.hash)])
    case ReadForCheck(i, now) =>
      if Decide(cfg, s.hash, now) == BeginHalfOpen
      then s.(pending := s.pending[i := SetState(HalfOpen, 0)]) else s
    case Flush(i, now) => Split(Overwrite(s.hash, s.pending[i], now), s.pending - {i})
    case Lapse => s.(hash := NoHash)
  }

  /** An instance that nobody interrupts does by a read and a write what the whole operation does. */
  lemma AloneIsWhole(cfg: Config, k: Key, i: Instance, now: nat)
    requires now < k.expireAt
    ensures
      var s := Split(k.hash, map[]);
      var failed := SplitNext(cfg, SplitNext(cfg, s, ReadForFailure(i)), Flush(i, now));
      var succeeded := SplitNext(cfg, SplitNext(cfg, s, ReadForSuccess(i)), Flush(i, now));
      var checked := SplitNext(cfg, s, ReadForCheck(i, now));
      && failed == Split(AfterFailure(cfg, k, now).hash, map[])
      && succeeded == Split(AfterSuccess(cfg, k, now).hash, map[])
      && (if i in checked.pending then SplitNext(cfg, checked, Flush(i, now)) else checked)
         == Split(AfterCheck(cfg, k, now).0.hash, map[])
  {
    var failure, success := FailureWrite(cfg, k.hash), SuccessWrite(k.hash);
    var none: map<Instance, Write> := map[];
    assert none[i := failure] - {i} == none && none[i := success] - {i} == none;
    assert none[i := SetState(HalfOpen, 0)] - {i} == none;
  }

  function SplitFrom(cfg: Config, start: Split, steps: seq<SplitStep>): Option<Split> {
    if steps == [] then Some(start)
    else
      var prefix := SplitFrom(cfg, start, steps[..|steps| - 1]);
      var step := steps[|steps| - 1];
      if prefix.Some? && SplitEnabled(prefix.value, step) then Some(SplitNext(cfg, prefix.value, step)) else None
  }

  const IDLE := Split(NoHash, map[])

  function SplitRun(cfg: Config, steps: seq<SplitStep>): Option<Split> {
    SplitFrom(cfg, IDLE, steps)
  }

  /** A count at or over the threshold is only ever stored beside the state "open". */
  ghost predicate CountMeansOpen(cfg: Config, h: Hash) {
    h.failures.Some? && h.failures.value >= cfg.failureThreshold ==> h.state == Some(Open)
  }

  ghost predicate SafeWrite(cfg: Config, w: Write) {
    w.failures >= cfg.failureThreshold ==> w.SetState? && w.state == Open
  }

  lemma {:induction false} SplitInv(cfg: Config, steps: seq<SplitStep>)
    requires cfg.failureThreshold >= 1 && SplitRun(cfg, steps).Some?
    ensures var s := SplitRun(cfg, steps).value;
            CountMeansOpen(cfg, s.hash) && forall i <- s.pending :: SafeWrite(cfg, s.pending[i])
  {
    if steps != [] {
      SplitInv(cfg, steps[..|steps| - 1]);
    }
  }

  ghost predicate AlwaysCountMeansOpen(cfg: Config) {
    forall steps :: SplitRun(cfg, steps).Some? ==> CountMeansOpen(cfg, SplitRun(cfg, steps).value.hash)
  }

  /** Over every interleaving, exactly when the threshold is positive. */
  lemma CountMeansOpenExact(cfg: Config)
    ensures AlwaysCountMeansOpen(cfg) <==> cfg.failureThreshold >= 1
  {
    if cfg.failureThreshold >= 1 {
      forall steps | SplitRun(cfg, steps).Some?
        ensures CountMeansOpen(cfg, SplitRun(cfg, steps).value.hash)
      {
        SplitInv(cfg, steps);
      }
    } else {
      var steps, s := SplitGo(cfg, [], IDLE, ReadForSuccess(0));
      steps, s := SplitGo(cfg, steps, s, Flush(0, 0));
      assert !CountMeansOpen(cfg, SplitRun(cfg, steps).value.hash);
    }
  }

  /** A write that would end the state "open". */
  predicate Ends(w: Write) {
    w.SetState? && w.state != Open
  }

  predicate StampedOpen(h: Hash, at: nat) {
    h.state == Some(Open) && h.lastTransition == Some(at)
  }

  /** A step within the time-out of a stamp at `at`, other than the key lapsing. */
  predicate Timely(cfg: Config, step: SplitStep, at: nat) {
    match step
    case ReadForCheck(_, now) => at <= now < at + cfg.resetTimeoutMs
    case Flush(_, now) => at <= now < at + cfg.resetTimeoutMs
    case Lapse => false
    case _ => true
  }

  /** Every timely continuation finds the state still "open". */
  ghost predicate StaysOpen(cfg: Config, s: Split, at: nat) {
    forall steps | (forall step <- steps :: Timely(cfg, step, at)) && SplitFrom(cfg, s, steps).Some? ::
      SplitFrom(cfg, s, steps).value.hash.state == Some(Open)
  }

  ghost predicate OpenAndSafe(s: Split, at: nat) {
    && s.hash.state == Some(Open) && s.hash.lastTransition.Some? && at <= s.hash.lastTransition.value
    && forall i <- s.pending :: !Ends(s.pending[i])
  }

  lemma {:induction false} SafeStaysOpen(cfg: Config, s: Split, at: nat, steps: seq<SplitStep>)
    requires OpenAndSafe(s, at) && SplitFrom(cfg, s, steps).Some?
    requires forall step <- steps :: Timely(cfg, step, at)
    ensures OpenAndSafe(SplitFrom(cfg, s, steps).value, at)
  {
    if steps != [] {
      var n := |steps| - 1;
      assert steps[n] in steps;
      SafeStaysOpen(cfg, s, at, steps[..n]);
    }
  }

  /**
  Interleaved, a circuit just stamped open stays open through its time-out, in every continuation in which the key does
  not lapse, exactly when no instance still holds a write that closes or half-opens it.
  */
  lemma OpenStaysExact(cfg: Config, s: Split, at: nat)
    requires StampedOpen(s.hash, at) && cfg.resetTimeoutMs > 0
    ensures StaysOpen(cfg, s, at) <==> forall i <- s.pending :: !Ends(s.pending[i])
  {
    if i :| i in s.pending && Ends(s.pending[i]) {
      var steps := [Flush(i, at)];
      assert steps[..0] == [] && SplitFrom(cfg, s, steps[..0]) == Some(s);
      assert SplitFrom(cfg, s, steps).value.hash.state != Some(Open);
    } else {
      forall steps | (forall step <- steps :: Timely(cfg, step, at)) && SplitFrom(cfg, s, steps).Some?
        ensures SplitFrom(cfg, s, steps).value.hash.state == Some(Open)
      {
        SafeStaysOpen(cfg, s, at, steps);
      }
    }
  }

  function ReadsForCheck(n: nat, now: nat): seq<SplitStep> {
    seq(n, i requires 0 <= i < n => ReadForCheck(i, now))
  }

  predicate PendingHalfOpen(s: Split, i: Instance) {
    i in s.pending && s.pending[i] == SetState(HalfOpen, 0)
  }

  /**
  Interleaved, every instance that reads the hash between the end of the time-out and the first write finds it open, and
  goes on to write "half-open" and to admit its request: any number of them.
  */
  lemma {:induction false} EveryReaderTransitions(cfg: Config, s: Split, n: nat, now: nat)
    requires s.pending == map[] && Decide(cfg, s.hash, now) == BeginHalfOpen
    ensures var t := SplitFrom(cfg, s, ReadsForCheck(n, now));
            && t.Some? && t.value.hash == s.hash
            && forall i: nat :: if i < n then PendingHalfOpen(t.value, i) else i !in t.value.pending
  {
    if n > 0 {
      EveryReaderTransitions(cfg, s, n - 1, now);
      assert ReadsForCheck(n, now)[..n - 1] == ReadsForCheck(n - 1, now);
      var before := SplitFrom(cfg, s, ReadsForCheck(n - 1, now)).value;
      var t := SplitFrom(cfg, s, ReadsForCheck(n, now)).value;
      assert t.pending == before.pending[n - 1 := SetState(HalfOpen, 0)];
      forall i: nat ensures if i < n then PendingHalfOpen(t, i) else i !in t.pending {
        assert if i < n - 1 then PendingHalfOpen(before, i) else i !in before.pending;
      }
    }
  }

  /** Extends a run that reached `s` by one step. */
  lemma SplitGo(cfg: Config, steps: seq<SplitStep>, s: Split, step: SplitStep)
    returns (steps': seq<SplitStep>, s': Split)
    requires SplitRun(cfg, steps) == Some(s) && SplitEnabled(s, step)
    ensures s' == SplitNext(cfg, s, step) && steps' == steps + [step] && SplitRun(cfg, steps') == Some(s')
  {
    steps', s' := steps + [step], SplitNext(cfg, s, step);
    assert steps'[..|steps|] == steps;
  }

  /** n failures, each read and written at once: one short of the limit they are only counted. */
  lemma {:induction false} CountUp(cfg: Config, n: nat) returns (steps: seq<SplitStep>, s: Split)
    requires n <= Limit(cfg)
    ensures SplitRun(cfg, steps) == Some(s) && s.pending == map[]
    ensures n < Limit(cfg) ==> s.hash.state == None && Failures(s.hash) == n
    ensures n == Limit(cfg) ==> StampedOpen(s.hash, 0)
  {
    steps, s := [], IDLE;
    if n > 0 {
      steps, s := CountUp(cfg, n - 1);
      steps, s := SplitGo(cfg, steps, s, ReadForFailure(0));
      steps, s := SplitGo(cfg, steps, s, Flush(0, 0));
    }
  }

  /**
  For every configuration some interleaving of two instances reaches a circuit stamped open beside a stale write that
  closes it: a success read the hash while it was half-open. One more step, and a check in the same instant admits.
  */
  lemma StaleSuccessCloses(cfg: Config) returns (steps: seq<SplitStep>, s: Split)
    ensures var at := cfg.resetTimeoutMs;
            && SplitRun(cfg, steps) == Some(s) && StampedOpen(s.hash, at)
            && s.pending == map[0 := SetState(Closed, 0)] && Ends(s.pending[0])
            && Decide(cfg, SplitNext(cfg, s, Flush(0, at)).hash, at) == Admit
  {
    var at := cfg.resetTimeoutMs;
    steps, s := CountUp(cfg, Limit(cfg));
    hide SplitRun, SplitFrom;
    steps, s := SplitGo(cfg, steps, s, ReadForCheck(0, at));
    assert s.pending == map[0 := SetState(HalfOpen, 0)];
    steps, s := SplitGo(cfg, steps, s, Flush(0, at));
    assert s.hash.state == Some(HalfOpen) && s.pending == map[];
    steps, s := SplitGo(cfg, steps, s, ReadForSuccess(0));
    steps, s := SplitGo(cfg, steps, s, ReadForFailure(1));
    steps, s := SplitGo(cfg, steps, s, Flush(1, at));
  }
}
