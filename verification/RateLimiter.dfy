/**
The sliding-window rate limiter for one `emito:rl:{channel}:{subscriberId}` key.

A call samples the clock, then runs one atomic MULTI (evict, add, count, set the TTL), and, when the count
is over the limit, removes its own entry with a separate ZREM.
*/
module RateLimiter {
  import opened Options
  import opened Sets
  import opened Clock

  /** The unique sorted-set member of one call. */
  type Id = nat

  type SortedSet = map<Id, nat>

  datatype Config = Config(max: int, windowMs: nat)

  /** What is remembered of a call that ran its MULTI: the instant it sampled and its answer. */
  datatype Call = Call(now: nat, allowed: bool)

  type Log = map<Id, Call>

  /** ZREMRANGEBYSCORE key lo hi */
  function RemoveByScore(entries: SortedSet, lo: int, hi: int): SortedSet {
    map m | m in entries && !(lo <= entries[m] <= hi) :: entries[m]
  }

  /** The sorted set after ZREMRANGEBYSCORE and ZADD. */
  function AfterMulti(cfg: Config, entries: SortedSet, id: Id, now: nat): SortedSet {
    RemoveByScore(entries, 0, now - cfg.windowMs)[id := now]
  }

  function TtlMs(cfg: Config): (ttl: nat)
    ensures cfg.windowMs + 60_000 <= ttl < cfg.windowMs + 61_000
  {
    (CeilSeconds(cfg.windowMs) + 60) * 1000
  }

  // ---------------------------------------------------------------------------------------------
  // Calls that do not overlap
  // ---------------------------------------------------------------------------------------------

  /** The allowed calls made strictly after `cutoff`. */
  ghost function Live(log: Log, cutoff: int): set<Id> {
    set m | m in log && log[m].allowed && log[m].now > cutoff
  }

  /** The documented rule, on the history of calls alone. */
  ghost predicate Permits(cfg: Config, log: Log, now: nat) {
    |Live(log, now - cfg.windowMs)| < cfg.max
  }

  /** The key holds exactly the live calls of the history, each at its instant. */
  ghost predicate Holds(entries: SortedSet, log: Log, cutoff: int) {
    entries.Keys == Live(log, cutoff) && forall m <- entries :: entries[m] == log[m].now
  }

  lemma EvictKeepsLive(entries: SortedSet, log: Log, cutoff: int, cutoff': int)
    requires Holds(entries, log, cutoff) && cutoff <= cutoff'
    ensures Holds(RemoveByScore(entries, 0, cutoff'), log, cutoff')
  {
  }

  /** A key that expired held only entries the window had already left. */
  lemma ExpiryKeepsLive(log: Log, cutoff: int)
    requires forall m <- log :: log[m].now <= cutoff
    ensures Holds(RemoveByScore(map[], 0, cutoff), log, cutoff)
  {
  }

  lemma LiveExtend(log: Log, id: Id, call: Call, cutoff: int)
    requires id !in log
    ensures
      Live(log[id := call], cutoff)
      == Live(log, cutoff) + if call.allowed && call.now > cutoff then {id} else {}
    ensures id !in Live(log, cutoff)
  {
  }

  lemma AddKeepsLive(entries: SortedSet, log: Log, cutoff: int, id: Id, now: nat)
    requires Holds(entries, log, cutoff) && id !in log && now > cutoff
    ensures Holds(entries[id := now], log[id := Call(now, true)], cutoff)
    ensures Holds(entries[id := now] - {id}, log[id := Call(now, false)], cutoff)
    ensures |entries[id := now]| == |Live(log, cutoff)| + 1
  {
    LiveExtend(log, id, Call(now, true), cutoff);
    LiveExtend(log, id, Call(now, false), cutoff);
    assert entries[id := now].Keys == entries.Keys + {id};
  }

  class Limiter {
    const cfg: Config
    var entries: SortedSet
    var expireAt: nat
    ghost var log: Log
    ghost var last: nat

    ghost predicate Valid()
      reads this
    {
      && cfg.windowMs > 0
      && Holds(entries, log, last - cfg.windowMs)
      && (forall m <- log :: log[m].now <= last)
      && (log == map[] || last + cfg.windowMs + 60_000 <= expireAt)
    }

    constructor (cfg: Config)
      requires cfg.windowMs > 0
      ensures Valid() && this.cfg == cfg && log == map[] && last == 0
    {
      this.cfg := cfg;
      entries, expireAt, log, last := map[], 0, map[], 0;
    }

    /** The atomic ZREMRANGEBYSCORE, ZADD, ZCARD, EXPIRE; the answer is that of ZCARD. */
    method Multi(id: Id, now: nat) returns (count: nat)
      requires Valid() && last <= now && id !in log
      modifies this`entries, this`expireAt
      ensures Holds(entries, log[id := Call(now, true)], now - cfg.windowMs)
      ensures Holds(entries - {id}, log[id := Call(now, false)], now - cfg.windowMs)
      ensures count == |Live(log, now - cfg.windowMs)| + 1
      ensures expireAt == now + TtlMs(cfg)
    {
      hide Live, RemoveByScore, TtlMs;
      EvictKeepsLive(entries, log, last - cfg.windowMs, now - cfg.windowMs);
      if now >= expireAt {
        ExpiryKeepsLive(log, now - cfg.windowMs);
        entries := map[];
      }
      entries := RemoveByScore(entries, 0, now - cfg.windowMs);
      AddKeepsLive(entries, log, now - cfg.windowMs, id, now);
      entries := entries[id := now];
      count := |entries|;
      expireAt := now + TtlMs(cfg);
    }

    method CheckAndRecord(id: Id, now: nat) returns (allowed: bool, remaining: int, resetMs: nat)
      requires Valid() && last <= now && id !in log
      modifies this
      ensures Valid()
      ensures last == now && log == old(log)[id := Call(now, allowed)]
      ensures allowed <==> Permits(cfg, old(log), now)
      ensures remaining == if allowed then cfg.max - |Live(old(log), now - cfg.windowMs)| - 1 else 0
      ensures resetMs == cfg.windowMs
    {
      hide Holds, Live, TtlMs;
      var count := Multi(id, now);
      if count > cfg.max {
        entries := entries - {id};
        allowed, remaining := false, 0;
      } else {
        allowed, remaining := true, cfg.max - count;
      }
      resetMs := cfg.windowMs;
      log, last := log[id := Call(now, allowed)], now;
    }
  }

  /** The history after one more call decided by the documented rule. */
  ghost function Decide(cfg: Config, log: Log, id: Id, now: nat): Log {
    log[id := Call(now, Permits(cfg, log, now))]
  }

  /** The history after calls `ids`, one after another, all at the instant `now`. */
  ghost function Burst(cfg: Config, log: Log, ids: seq<Id>, now: nat): Log {
    if ids == [] then log
    else Decide(cfg, Burst(cfg, log, ids[..|ids| - 1], now), ids[|ids| - 1], now)
  }

  ghost predicate Fresh(log: Log, ids: seq<Id>) {
    && (forall i | 0 <= i < |ids| :: ids[i] !in log)
    && (forall i, j | 0 <= i < j < |ids| :: ids[i] != ids[j])
  }

  lemma {:induction false} BurstLogsOnly(cfg: Config, log: Log, ids: seq<Id>, now: nat, other: Id)
    requires forall i | 0 <= i < |ids| :: ids[i] != other
    ensures other in Burst(cfg, log, ids, now) <==> other in log
    ensures other in log ==> Burst(cfg, log, ids, now)[other] == log[other]
  {
    if ids != [] {
      BurstLogsOnly(cfg, log, ids[..|ids| - 1], now, other);
    }
  }

  /** A burst of calls fills the window up to `max` and no further. */
  lemma {:induction false} BurstFills(cfg: Config, log: Log, ids: seq<Id>, now: nat)
    requires cfg.windowMs > 0 && Fresh(log, ids)
    ensures
      |Live(Burst(cfg, log, ids, now), now - cfg.windowMs)|
      == Filled(cfg.max, |Live(log, now - cfg.windowMs)|, |ids|)
  {
    if ids != [] {
      hide Live;
      var n := |ids| - 1;
      BurstFills(cfg, log, ids[..n], now);
      var mid := Burst(cfg, log, ids[..n], now);
      BurstLogsOnly(cfg, log, ids[..n], now, ids[n]);
      LiveExtend(mid, ids[n], Call(now, Permits(cfg, mid, now)), now - cfg.windowMs);
    }
  }

  /**
  `remaining` is exact: of any further calls at the same instant, precisely the first
  `max - |entries in the window|` are allowed.
  */
  lemma {:induction false} BurstExact(cfg: Config, log: Log, ids: seq<Id>, now: nat, i: nat)
    requires cfg.windowMs > 0 && Fresh(log, ids) && i < |ids|
    ensures
      var after := Burst(cfg, log, ids, now);
      ids[i] in after && (after[ids[i]].allowed <==> i < cfg.max - |Live(log, now - cfg.windowMs)|)
  {
    hide Live;
    var n := |ids| - 1;
    if i < n {
      BurstExact(cfg, log, ids[..n], now, i);
    } else {
      BurstFills(cfg, log, ids[..n], now);
    }
  }

  /** How many entries `extra` calls leave in a window that held `used` and admits up to `max`. */
  function Filled(max: int, used: nat, extra: nat): nat {
    if used >= max then used else if used + extra >= max then max else used + extra
  }

  // ---------------------------------------------------------------------------------------------
  // Calls that interleave
  // ---------------------------------------------------------------------------------------------

  datatype State = State(
    clock: nat,
    entries: SortedSet,
    expireAt: nat,
    sampled: map<Id, nat>,   // calls that have read the clock and not yet run their MULTI
    doomed: set<Id>,         // refused calls whose ZREM is still to come
    log: Log)

  datatype Step =
    | Tick(ms: nat)
    | Sample(id: Id)
    | Multi(id: Id)
    | Zrem(id: Id)
    | Expire

  const Start := State(0, map[], 0, map[], {}, map[])

  /** `lag` bounds the time between a call's reading of the clock and its MULTI. */
  predicate Enabled(lag: nat, s: State, step: Step) {
    match step
    case Tick(_) => true
    case Sample(id) => id !in s.sampled && id !in s.log
    case Multi(id) => id in s.sampled && s.clock <= s.sampled[id] + lag
    case Zrem(id) => id in s.doomed
    case Expire => s.clock >= s.expireAt
  }

  function Apply(cfg: Config, lag: nat, s: State, step: Step): State
    requires Enabled(lag, s, step)
  {
    match step
    case Tick(ms) => s.(clock := s.clock + ms)
    case Sample(id) => s.(sampled := s.sampled[id := s.clock])
    case Multi(id) =>
      var now := s.sampled[id];
      var entries := AfterMulti(cfg, s.entries, id, now);
      var allowed := |entries| <= cfg.max;
      s.(entries := entries,
         expireAt := s.clock + TtlMs(cfg),
         sampled := s.sampled - {id},
         doomed := if allowed then s.doomed else s.doomed + {id},
         log := s.log[id := Call(now, allowed)])
    case Zrem(id) => s.(entries := s.entries - {id}, doomed := s.doomed - {id})
    case Expire => s.(entries := map[])
  }

  function Run(cfg: Config, lag: nat, steps: seq<Step>): Option<State> {
    if steps == [] then Some(Start)
    else
      var prefix := Run(cfg, lag, steps[..|steps| - 1]);
      var step := steps[|steps| - 1];
      if prefix.Some? && Enabled(lag, prefix.value, step)
      then Some(Apply(cfg, lag, prefix.value, step))
      else None
  }

  /** The calls answered "allowed" whose instant lies in [from, until). */
  ghost function AllowedIn(log: Log, from: int, until: int): set<Id> {
    set m | m in log && log[m].allowed && from <= log[m].now < until
  }

  /** No more than `max` calls are allowed in the interval of this length that begins at `t`. */
  ghost predicate LimitHolds(cfg: Config, length: int, log: Log, t: int) {
    var allowed := AllowedIn(log, t, t + length);
    allowed == {} || |allowed| <= cfg.max
  }

  ghost predicate LimitEverywhere(cfg: Config, length: int, log: Log) {
    forall t: int :: LimitHolds(cfg, length, log, t)
  }

  /** Entries, the clock and the TTL agree with the history. */
  ghost predicate EntriesInv(cfg: Config, s: State) {
    && s.sampled.Keys !! s.log.Keys
    && (forall m <- s.sampled :: s.sampled[m] <= s.clock)
    && (forall m <- s.entries :: m in s.log && s.entries[m] == s.log[m].now)
    && (forall m <- s.doomed :: m in s.log && !s.log[m].allowed)
    && (forall m <- s.log :: s.log[m].now <= s.clock)
    && (forall m <- s.entries :: s.entries[m] + TtlMs(cfg) <= s.expireAt)
  }

  lemma StepKeepsEntries(cfg: Config, lag: nat, s: State, step: Step)
    requires EntriesInv(cfg, s) && Enabled(lag, s, step)
    ensures EntriesInv(cfg, Apply(cfg, lag, s, step))
  {
  }

  /** The entries of other calls that are left in the window of a call at `now`. */
  ghost function Others(cfg: Config, entries: SortedSet, now: nat): set<Id> {
    set m <- entries | now - cfg.windowMs < entries[m]
  }

  lemma MultiEntries(cfg: Config, entries: SortedSet, id: Id, now: nat)
    requires id !in entries
    ensures var after := AfterMulti(cfg, entries, id, now);
            after.Keys == Others(cfg, entries, now) + {id} && |after| == |Others(cfg, entries, now)| + 1
  {
    var after := AfterMulti(cfg, entries, id, now);
    assert after.Keys == Others(cfg, entries, now) + {id};
    assert |after.Keys| == |after|;
  }

  /** A MULTI answers by the entries that are left in its window: with fewer than `max` of other calls it is allowed. */
  lemma MultiExact(cfg: Config, lag: nat, s: State, id: Id)
    requires EntriesInv(cfg, s) && Enabled(lag, s, Multi(id))
    ensures
      var now, t := s.sampled[id], Apply(cfg, lag, s, Multi(id));
      var allowed := |Others(cfg, s.entries, now)| < cfg.max;
      && id !in s.log && t.log == s.log[id := Call(now, allowed)]
      && t.entries.Keys == Others(cfg, s.entries, now) + {id} && t.expireAt == s.clock + TtlMs(cfg)
      && t.doomed == s.doomed + if allowed then {} else {id}
  {
    assert id !in s.log && id !in s.entries;
    MultiEntries(cfg, s.entries, id, s.sampled[id]);
    hide EntriesInv, AfterMulti, Others, TtlMs;
  }

  /** An allowed call keeps its entry until its instant has left the window of every later call. */
  ghost predicate Kept(cfg: Config, s: State) {
    forall m <- s.log | s.log[m].allowed :: m in s.entries || s.log[m].now + cfg.windowMs <= s.clock
  }

  ghost predicate Inv(cfg: Config, lag: nat, s: State) {
    EntriesInv(cfg, s) && Kept(cfg, s) && LimitEverywhere(cfg, cfg.windowMs - lag, s.log)
  }

  /** One more call, where the allowed calls of every interval that holds it still have their entries. */
  lemma LimitAfterCall(cfg: Config, length: int, log: Log, id: Id, call: Call, entries: SortedSet, t: int)
    requires id !in log && LimitHolds(cfg, length, log, t)
    requires call.allowed ==> |entries| <= cfg.max
    requires t <= call.now < t + length ==> AllowedIn(log, t, t + length) + {id} <= entries.Keys
    ensures LimitHolds(cfg, length, log[id := call], t)
  {
    var before := AllowedIn(log, t, t + length);
    var after := AllowedIn(log[id := call], t, t + length);
    if call.allowed && t <= call.now < t + length {
      assert after <= before + {id};
      Subset(after, entries.Keys);
    } else {
      assert after == before;
    }
  }

  /** The allowed calls of an interval all still have their entries after a MULTI at `now`. */
  ghost predicate Survive(cfg: Config, length: int, s: State, id: Id, now: nat, t: int) {
    t <= now < t + length ==> AllowedIn(s.log, t, t + length) + {id} <= AfterMulti(cfg, s.entries, id, now).Keys
  }

  lemma MultiKeepsLimit(cfg: Config, lag: nat, length: int, s: State, id: Id)
    requires EntriesInv(cfg, s) && Enabled(lag, s, Multi(id)) && LimitEverywhere(cfg, length, s.log)
    requires forall t: int :: Survive(cfg, length, s, id, s.sampled[id], t)
    ensures LimitEverywhere(cfg, length, Apply(cfg, lag, s, Multi(id)).log)
  {
    var now := s.sampled[id];
    var entries := AfterMulti(cfg, s.entries, id, now);
    var call := Call(now, |entries| <= cfg.max);
    var log := s.log[id := call];
    assert Apply(cfg, lag, s, Multi(id)).log == log;
    forall t: int ensures LimitHolds(cfg, length, log, t) {
      assert Survive(cfg, length, s, id, now, t) && LimitHolds(cfg, length, s.log, t);
      hide LimitHolds, AfterMulti, EntriesInv, AllowedIn;
      LimitAfterCall(cfg, length, s.log, id, call, entries, t);
    }
  }

  lemma AllowedSurvive(cfg: Config, lag: nat, s: State, id: Id, t: int)
    requires Inv(cfg, lag, s) && Enabled(lag, s, Multi(id))
    ensures Survive(cfg, cfg.windowMs - lag, s, id, s.sampled[id], t)
  {
  }

  lemma StepKeepsKept(cfg: Config, lag: nat, s: State, step: Step)
    requires EntriesInv(cfg, s) && Kept(cfg, s) && Enabled(lag, s, step)
    ensures Kept(cfg, Apply(cfg, lag, s, step))
  {
  }

  lemma StepKeepsLimit(cfg: Config, lag: nat, length: int, s: State, step: Step)
    requires EntriesInv(cfg, s) && Enabled(lag, s, step) && LimitEverywhere(cfg, length, s.log)
    requires step.Multi? && step.id in s.sampled ==>
               forall t: int :: Survive(cfg, length, s, step.id, s.sampled[step.id], t)
    ensures LimitEverywhere(cfg, length, Apply(cfg, lag, s, step).log)
  {
    if step.Multi? {
      MultiKeepsLimit(cfg, lag, length, s, step.id);
    }
    hide LimitEverywhere, Survive, EntriesInv;
  }

  lemma StepKeepsInv(cfg: Config, lag: nat, s: State, step: Step)
    requires Inv(cfg, lag, s) && Enabled(lag, s, step)
    ensures Inv(cfg, lag, Apply(cfg, lag, s, step))
  {
    hide LimitEverywhere, Survive, EntriesInv, Kept, Apply;
    var length := cfg.windowMs - lag;
    if step.Multi? {
      var now := s.sampled[step.id];
      forall t: int ensures Survive(cfg, length, s, step.id, now, t) {
        AllowedSurvive(cfg, lag, s, step.id, t);
      }
    }
    StepKeepsEntries(cfg, lag, s, step);
    StepKeepsKept(cfg, lag, s, step);
    StepKeepsLimit(cfg, lag, length, s, step);
  }

  lemma NoCalls(cfg: Config, length: int)
    ensures LimitEverywhere(cfg, length, map[])
  {
    forall t: int ensures LimitHolds(cfg, length, map[], t) {
      assert AllowedIn(map[], t, t + length) == {};
    }
  }

  lemma {:induction false} RunKeepsInv(cfg: Config, lag: nat, steps: seq<Step>)
    requires Run(cfg, lag, steps).Some?
    ensures Inv(cfg, lag, Run(cfg, lag, steps).value)
  {
    if steps == [] {
      NoCalls(cfg, cfg.windowMs - lag);
    } else {
      hide Inv, Apply, Enabled;
      RunKeepsInv(cfg, lag, steps[..|steps| - 1]);
      StepKeepsInv(cfg, lag, Run(cfg, lag, steps[..|steps| - 1]).value, steps[|steps| - 1]);
    }
  }

  /** In every interleaving, the calls allowed in any interval of length `windowMs - lag` number at most `max`. */
  lemma AtMostMaxPerWindow(cfg: Config, lag: nat, steps: seq<Step>, t: int)
    requires Run(cfg, lag, steps).Some?
    ensures LimitHolds(cfg, cfg.windowMs - lag, Run(cfg, lag, steps).value.log, t)
  {
    RunKeepsInv(cfg, lag, steps);
  }

  /** When the key's TTL can fire, every entry it drops left the window at least a minute earlier. */
  lemma TtlDropsOnlyStaleEntries(cfg: Config, lag: nat, steps: seq<Step>, m: Id)
    requires Run(cfg, lag, steps).Some?
    requires Enabled(lag, Run(cfg, lag, steps).value, Expire)
    requires m in Run(cfg, lag, steps).value.entries
    ensures var s := Run(cfg, lag, steps).value; s.entries[m] + cfg.windowMs + 60_000 <= s.clock
  {
    RunKeepsInv(cfg, lag, steps);
  }

  // ---------------------------------------------------------------------------------------------
  // Calls that reach Redis in the order of their instants
  // ---------------------------------------------------------------------------------------------

  predicate InOrder(s: State, step: Step) {
    step.Multi? && step.id in s.sampled ==> forall m <- s.log :: s.log[m].now <= s.sampled[step.id]
  }

  ghost predicate RunInOrder(cfg: Config, lag: nat, steps: seq<Step>) {
    steps != [] ==>
      var prefix := Run(cfg, lag, steps[..|steps| - 1]);
      RunInOrder(cfg, lag, steps[..|steps| - 1]) && (prefix.Some? ==> InOrder(prefix.value, steps[|steps| - 1]))
  }

  /** The instant lies outside the window of every call still to come. */
  ghost predicate Outside(cfg: Config, lag: nat, s: State, now: nat) {
    (exists x <- s.log :: now + cfg.windowMs <= s.log[x].now) || now + cfg.windowMs + lag <= s.clock
  }

  ghost predicate KeptInOrder(cfg: Config, lag: nat, s: State) {
    forall m <- s.log | s.log[m].allowed :: m in s.entries || Outside(cfg, lag, s, s.log[m].now)
  }

  ghost predicate InOrderInv(cfg: Config, lag: nat, s: State) {
    EntriesInv(cfg, s) && KeptInOrder(cfg, lag, s) && LimitEverywhere(cfg, cfg.windowMs, s.log)
  }

  lemma InOrderSurvive(cfg: Config, lag: nat, s: State, id: Id, t: int)
    requires InOrderInv(cfg, lag, s) && Enabled(lag, s, Multi(id)) && InOrder(s, Multi(id))
    ensures Survive(cfg, cfg.windowMs, s, id, s.sampled[id], t)
  {
    hide LimitEverywhere;
  }

  lemma InOrderKeeps(cfg: Config, lag: nat, s: State, step: Step, m: Id)
    requires InOrderInv(cfg, lag, s) && Enabled(lag, s, step) && cfg.windowMs + lag <= TtlMs(cfg)
    requires m in s.log && s.log[m].allowed
    ensures var t := Apply(cfg, lag, s, step);
            m in t.log && t.log[m] == s.log[m] && (m in t.entries || Outside(cfg, lag, t, t.log[m].now))
  {
    hide LimitEverywhere;
    var t := Apply(cfg, lag, s, step);
    if m !in s.entries {
      if x :| x in s.log && s.log[m].now + cfg.windowMs <= s.log[x].now {
        assert t.log[x] == s.log[x];
      }
    } else if step.Multi? && m !in t.entries {
      assert t.log[step.id].now == s.sampled[step.id];
    }
  }

  lemma StepKeepsInOrder(cfg: Config, lag: nat, s: State, step: Step)
    requires InOrderInv(cfg, lag, s) && Enabled(lag, s, step) && cfg.windowMs + lag <= TtlMs(cfg)
    ensures KeptInOrder(cfg, lag, Apply(cfg, lag, s, step))
  {
    var t := Apply(cfg, lag, s, step);
    forall m <- t.log | t.log[m].allowed ensures m in t.entries || Outside(cfg, lag, t, t.log[m].now) {
      if m in s.log && s.log[m].allowed {
        InOrderKeeps(cfg, lag, s, step, m);
      }
    }
    hide LimitEverywhere, EntriesInv;
  }

  lemma StepKeepsInOrderInv(cfg: Config, lag: nat, s: State, step: Step)
    requires InOrderInv(cfg, lag, s) && Enabled(lag, s, step) && InOrder(s, step) && cfg.windowMs + lag <= TtlMs(cfg)
    ensures InOrderInv(cfg, lag, Apply(cfg, lag, s, step))
  {
    hide LimitEverywhere, Survive, EntriesInv, KeptInOrder, Apply;
    if step.Multi? {
      var now := s.sampled[step.id];
      forall t: int ensures Survive(cfg, cfg.windowMs, s, step.id, now, t) {
        InOrderSurvive(cfg, lag, s, step.id, t);
      }
    }
    StepKeepsEntries(cfg, lag, s, step);
    StepKeepsInOrder(cfg, lag, s, step);
    StepKeepsLimit(cfg, lag, cfg.windowMs, s, step);
  }

  /**
  When calls reach Redis in the order of the instants they sampled, each within the time by which the TTL exceeds the
  window, a minute or more, at most `max` are allowed in any interval of the whole window.
  */
  lemma {:induction false} AtMostMaxInOrder(cfg: Config, lag: nat, steps: seq<Step>)
    requires Run(cfg, lag, steps).Some? && RunInOrder(cfg, lag, steps) && cfg.windowMs + lag <= TtlMs(cfg)
    ensures InOrderInv(cfg, lag, Run(cfg, lag, steps).value)
    ensures LimitEverywhere(cfg, cfg.windowMs, Run(cfg, lag, steps).value.log)
  {
    if steps == [] {
      NoCalls(cfg, cfg.windowMs);
    } else {
      hide Apply, Enabled, InOrder, LimitEverywhere, EntriesInv, KeptInOrder;
      AtMostMaxInOrder(cfg, lag, steps[..|steps| - 1]);
      StepKeepsInOrderInv(cfg, lag, Run(cfg, lag, steps[..|steps| - 1]).value, steps[|steps| - 1]);
    }
  }
}
