/**
How long an interval the rate limiter guards, exactly, when calls interleave: for every configuration and every bound on
the time between a call's reading of the clock and its MULTI.
*/
module RateLimiterBounds {
  import opened Options
  import opened Sets
  import opened Clock
  import opened RateLimiter

  /** Over all runs, no interval of this length sees more than `max` allowed calls. */
  ghost predicate Guarded(cfg: Config, lag: nat, length: int) {
    forall steps :: Run(cfg, lag, steps).Some? ==> LimitEverywhere(cfg, length, Run(cfg, lag, steps).value.log)
  }

  /** One call per millisecond: the entry of the latest call refuses every stale one until the key expires. */
  predicate OnePerMillisecond(cfg: Config, lag: nat) {
    cfg.max == 1 && cfg.windowMs == 1 && lag < TtlMs(cfg)
  }

  /** The longest interval guarded. */
  function Reach(cfg: Config, lag: nat): nat {
    if OnePerMillisecond(cfg, lag) then 1 else if lag >= cfg.windowMs then 0 else cfg.windowMs - lag
  }

  /** Extends a run that reached `s` by one step. */
  lemma Go(cfg: Config, lag: nat, steps: seq<Step>, s: State, step: Step) returns (steps': seq<Step>, s': State)
    requires Run(cfg, lag, steps) == Some(s) && Enabled(lag, s, step)
    ensures s' == Apply(cfg, lag, s, step) && Run(cfg, lag, steps') == Some(s')
  {
    steps', s' := steps + [step], Apply(cfg, lag, s, step);
    assert steps'[..|steps|] == steps;
  }

  /** The three steps of a run, field by field. */
  lemma GoTick(cfg: Config, lag: nat, steps: seq<Step>, s: State, ms: nat) returns (steps': seq<Step>, s': State)
    requires Run(cfg, lag, steps) == Some(s)
    ensures Run(cfg, lag, steps') == Some(s') && s' == s.(clock := s.clock + ms)
  {
    steps', s' := Go(cfg, lag, steps, s, Tick(ms));
  }

  lemma GoSample(cfg: Config, lag: nat, steps: seq<Step>, s: State, id: Id) returns (steps': seq<Step>, s': State)
    requires Run(cfg, lag, steps) == Some(s) && id !in s.sampled && id !in s.log
    ensures Run(cfg, lag, steps') == Some(s') && s' == s.(sampled := s.sampled[id := s.clock])
  {
    steps', s' := Go(cfg, lag, steps, s, Sample(id));
  }

  lemma GoExpire(cfg: Config, lag: nat, steps: seq<Step>, s: State) returns (steps': seq<Step>, s': State)
    requires Run(cfg, lag, steps) == Some(s) && s.clock >= s.expireAt
    ensures Run(cfg, lag, steps') == Some(s') && s' == s.(entries := map[])
  {
    steps', s' := Go(cfg, lag, steps, s, Expire);
  }

  lemma GoMulti(cfg: Config, lag: nat, steps: seq<Step>, s: State, id: Id, allowed: bool)
    returns (steps': seq<Step>, s': State)
    requires Run(cfg, lag, steps) == Some(s) && id in s.sampled && s.clock <= s.sampled[id] + lag
    requires allowed <==> |AfterMulti(cfg, s.entries, id, s.sampled[id])| <= cfg.max
    ensures Run(cfg, lag, steps') == Some(s')
    ensures s' == State(s.clock, AfterMulti(cfg, s.entries, id, s.sampled[id]), s.clock + TtlMs(cfg), s.sampled - {id},
                        if allowed then s.doomed else s.doomed + {id}, s.log[id := Call(s.sampled[id], allowed)])
  {
    steps', s' := Go(cfg, lag, steps, s, Multi(id));
  }

  // ---------------------------------------------------------------------------------------------
  // Nothing shorter is broken
  // ---------------------------------------------------------------------------------------------

  lemma ShorterHolds(cfg: Config, length: int, longer: int, log: Log)
    requires LimitEverywhere(cfg, longer, log) && length <= longer
    ensures LimitEverywhere(cfg, length, log)
  {
    forall t: int ensures LimitHolds(cfg, length, log, t) {
      assert LimitHolds(cfg, longer, log, t);
      Subset(AllowedIn(log, t, t + length), AllowedIn(log, t, t + longer));
      if AllowedIn(log, t, t + longer) == {} {
        assert AllowedIn(log, t, t + length) == {};
      }
    }
  }

  lemma EmptyHolds(cfg: Config, length: int, log: Log)
    requires length <= 0
    ensures LimitEverywhere(cfg, length, log)
  {
    forall t: int ensures LimitHolds(cfg, length, log, t) {
      assert AllowedIn(log, t, t + length) == {};
    }
  }

  /** Where the limit is one call per millisecond, the latest instant is that of an allowed call still in the set. */
  ghost predicate LatestHolds(lag: nat, s: State) {
    || (exists m :: IsLatest(s, m))
    || (forall x <- s.log :: s.log[x].now + lag < s.clock)
  }

  ghost predicate AllowedApart(log: Log) {
    forall a <- log, b <- log | a != b && log[a].allowed && log[b].allowed :: log[a].now != log[b].now
  }

  ghost predicate ApartInv(cfg: Config, lag: nat, s: State) {
    EntriesInv(cfg, s) && LatestHolds(lag, s) && AllowedApart(s.log) && LastMulti(cfg, lag, s)
  }

  /** The TTL was set by the last MULTI, no earlier than any instant in the history. */
  ghost predicate LastMulti(cfg: Config, lag: nat, s: State) {
    forall x <- s.log :: s.log[x].now + TtlMs(cfg) <= s.expireAt
  }

  /** A call later than every one before evicts every entry. */
  lemma LaterIsAlone(cfg: Config, s: State, id: Id, now: nat)
    requires EntriesInv(cfg, s) && cfg.windowMs == 1 && forall x <- s.log :: s.log[x].now < now
    ensures AfterMulti(cfg, s.entries, id, now) == map[id := now] && |AfterMulti(cfg, s.entries, id, now)| == 1
  {
  }

  /** A call no later than the latest finds that one's entry. */
  lemma StaleIsRefused(cfg: Config, s: State, id: Id, now: nat, m: Id)
    requires m in s.entries && m != id && cfg.windowMs == 1 && now <= s.entries[m]
    ensures m in AfterMulti(cfg, s.entries, id, now) && |AfterMulti(cfg, s.entries, id, now)| > 1
  {
    Subset({m, id}, AfterMulti(cfg, s.entries, id, now).Keys);
  }

  ghost predicate IsLatest(s: State, m: Id) {
    m in s.entries && m in s.log && s.log[m].allowed && forall x <- s.log :: s.log[x].now <= s.log[m].now
  }

  predicate IsLater(s: State, now: nat) {
    forall x <- s.log :: s.log[x].now < now
  }

  lemma MultiLater(cfg: Config, lag: nat, s: State, id: Id)
    requires cfg.max == 1 && cfg.windowMs == 1 && EntriesInv(cfg, s) && Enabled(lag, s, Multi(id))
    requires IsLater(s, s.sampled[id])
    ensures IsLatest(Apply(cfg, lag, s, Multi(id)), id)
  {
    LaterIsAlone(cfg, s, id, s.sampled[id]);
    hide AfterMulti, EntriesInv, TtlMs;
  }

  lemma MultiStale(cfg: Config, lag: nat, s: State, id: Id, m: Id)
    requires cfg.max == 1 && cfg.windowMs == 1 && EntriesInv(cfg, s) && Enabled(lag, s, Multi(id))
    requires IsLatest(s, m) && s.sampled[id] <= s.log[m].now
    ensures var t := Apply(cfg, lag, s, Multi(id)); IsLatest(t, m) && !t.log[id].allowed
  {
    StaleIsRefused(cfg, s, id, s.sampled[id], m);
    hide TtlMs;
  }

  lemma SomeLatest(cfg: Config, lag: nat, s: State, id: Id) returns (m: Id)
    requires LatestHolds(lag, s) && Enabled(lag, s, Multi(id)) && !IsLater(s, s.sampled[id])
    ensures IsLatest(s, m) && s.sampled[id] <= s.log[m].now
  {
    m :| IsLatest(s, m);
  }

  /** A call is allowed exactly when its instant is later than every one before. */
  lemma MultiIsApart(cfg: Config, lag: nat, s: State, id: Id)
    requires OnePerMillisecond(cfg, lag) && ApartInv(cfg, lag, s) && Enabled(lag, s, Multi(id))
    ensures var t := Apply(cfg, lag, s, Multi(id));
            LatestHolds(lag, t) && id in t.log && (t.log[id].allowed ==> IsLater(s, t.log[id].now))
  {
    if IsLater(s, s.sampled[id]) {
      MultiLater(cfg, lag, s, id);
    } else {
      var m := SomeLatest(cfg, lag, s, id);
      MultiStale(cfg, lag, s, id, m);
    }
    hide AfterMulti, EntriesInv, TtlMs, LastMulti, AllowedApart, IsLater, IsLatest;
  }

  lemma StepKeepsApart(cfg: Config, lag: nat, s: State, step: Step)
    requires OnePerMillisecond(cfg, lag) && ApartInv(cfg, lag, s) && Enabled(lag, s, step)
    ensures ApartInv(cfg, lag, Apply(cfg, lag, s, step))
  {
    StepKeepsEntries(cfg, lag, s, step);
    if step.Multi? {
      MultiIsApart(cfg, lag, s, step.id);
      hide LatestHolds, EntriesInv;
    } else {
      OtherStepKeepsLatest(cfg, lag, s, step);
      hide LatestHolds, EntriesInv;
    }
  }

  lemma OtherStepKeepsLatest(cfg: Config, lag: nat, s: State, step: Step)
    requires OnePerMillisecond(cfg, lag) && ApartInv(cfg, lag, s) && Enabled(lag, s, step) && !step.Multi?
    ensures LatestHolds(lag, Apply(cfg, lag, s, step))
  {
    hide TtlMs;
    var t := Apply(cfg, lag, s, step);
    if m :| IsLatest(s, m) {
      if !step.Expire? {
        assert IsLatest(t, m);
      }
    }
  }

  lemma {:induction false} RunIsApart(cfg: Config, lag: nat, steps: seq<Step>)
    requires OnePerMillisecond(cfg, lag) && Run(cfg, lag, steps).Some?
    ensures ApartInv(cfg, lag, Run(cfg, lag, steps).value)
  {
    if steps != [] {
      hide ApartInv, Apply, Enabled;
      RunIsApart(cfg, lag, steps[..|steps| - 1]);
      StepKeepsApart(cfg, lag, Run(cfg, lag, steps[..|steps| - 1]).value, steps[|steps| - 1]);
    }
  }

  lemma ApartHolds(cfg: Config, log: Log)
    requires AllowedApart(log) && cfg.max == 1
    ensures LimitEverywhere(cfg, 1, log)
  {
    forall t: int ensures LimitHolds(cfg, 1, log, t) {
      var allowed := AllowedIn(log, t, t + 1);
      if m :| m in allowed {
        assert allowed == {m};
      }
    }
  }

  /** Nobody is ever allowed when `max` is not positive. */
  lemma {:induction false} NobodyAllowed(cfg: Config, lag: nat, steps: seq<Step>)
    requires cfg.max <= 0 && Run(cfg, lag, steps).Some?
    ensures forall m <- Run(cfg, lag, steps).value.log :: !Run(cfg, lag, steps).value.log[m].allowed
  {
    if steps != [] {
      var n := |steps| - 1;
      NobodyAllowed(cfg, lag, steps[..n]);
      var s := Run(cfg, lag, steps[..n]).value;
      if steps[n].Multi? {
        assert steps[n].id in AfterMulti(cfg, s.entries, steps[n].id, s.sampled[steps[n].id]);
      }
    }
  }

  lemma RefusalsHold(cfg: Config, length: int, log: Log)
    requires forall m <- log :: !log[m].allowed
    ensures LimitEverywhere(cfg, length, log)
  {
    forall t: int ensures LimitHolds(cfg, length, log, t) {
      assert AllowedIn(log, t, t + length) == {};
    }
  }

  lemma ReachIsGuarded(cfg: Config, lag: nat, length: int, steps: seq<Step>)
    requires (cfg.max <= 0 || length <= Reach(cfg, lag)) && Run(cfg, lag, steps).Some?
    ensures LimitEverywhere(cfg, length, Run(cfg, lag, steps).value.log)
  {
    var log := Run(cfg, lag, steps).value.log;
    if cfg.max <= 0 {
      NobodyAllowed(cfg, lag, steps);
      RefusalsHold(cfg, length, log);
    } else if length <= 0 {
      EmptyHolds(cfg, length, log);
    } else if OnePerMillisecond(cfg, lag) {
      RunIsApart(cfg, lag, steps);
      ApartHolds(cfg, log);
      ShorterHolds(cfg, length, 1, log);
    } else {
      RunKeepsInv(cfg, lag, steps);
      ShorterHolds(cfg, length, cfg.windowMs - lag, log);
    }
  }

  // ---------------------------------------------------------------------------------------------
  // Everything longer is broken
  // ---------------------------------------------------------------------------------------------

  lemma {:induction false} MoreLag(cfg: Config, lag: nat, more: nat, steps: seq<Step>)
    requires lag <= more && Run(cfg, lag, steps).Some?
    ensures Run(cfg, more, steps) == Run(cfg, lag, steps)
  {
    if steps != [] {
      MoreLag(cfg, lag, more, steps[..|steps| - 1]);
    }
  }

  function UpTo(n: nat): (r: set<nat>)
    ensures |r| == n && forall i: nat :: i in r <==> i < n
  {
    if n == 0 then {} else UpTo(n - 1) + {n - 1}
  }

  lemma OneMoreEntry(cfg: Config, entries: SortedSet, id: Id, now: nat)
    ensures |AfterMulti(cfg, entries, id, now)| <= |entries| + 1
  {
    assert AfterMulti(cfg, entries, id, now).Keys <= entries.Keys + {id};
    Subset(AfterMulti(cfg, entries, id, now).Keys, entries.Keys + {id});
    assert |entries.Keys| == |entries|;
  }

  /** A MULTI at `now` leaves its own entry alone when every other one has left the window. */
  lemma AloneAfter(cfg: Config, entries: SortedSet, id: Id, now: nat)
    requires forall m <- entries :: entries[m] + cfg.windowMs <= now
    ensures AfterMulti(cfg, entries, id, now) == map[id := now] && |AfterMulti(cfg, entries, id, now)| == 1
  {
  }

  /** And one more stays when its entry has not. */
  lemma TwoAfter(cfg: Config, entries: SortedSet, other: Id, id: Id, now: nat)
    requires other in entries && other != id && entries[other] + cfg.windowMs > now
    requires forall m <- entries | m != other :: entries[m] + cfg.windowMs <= now
    ensures AfterMulti(cfg, entries, id, now) == map[other := entries[other], id := now]
    ensures |AfterMulti(cfg, entries, id, now)| == 2
  {
    var r := map[other := entries[other], id := now];
    assert AfterMulti(cfg, entries, id, now) == r;
    assert r.Keys == {other, id} && |r| == |r.Keys|;
  }

  /** The first n calls were allowed at instant 0, and nothing else has happened. */
  ghost predicate FilledAtZero(s: State, n: nat) {
    && s.clock == 0 && s.sampled == map[] && s.log.Keys == UpTo(n) && |s.entries| <= n
    && (forall m <- s.log :: s.log[m] == Call(0, true)) && (forall m <- s.entries :: s.entries[m] == 0)
  }

  lemma FilledLog(log: Log, n: nat)
    requires log.Keys == UpTo(n) && forall m <- log :: log[m] == Call(0, true)
    ensures n !in log
    ensures var log' := log[n := Call(0, true)];
            log'.Keys == UpTo(n + 1) && forall m <- log' :: log'[m] == Call(0, true)
  {
    assert log[n := Call(0, true)].Keys == log.Keys + {n};
  }

  lemma FilledMore(cfg: Config, s: State, s': State, n: nat)
    requires FilledAtZero(s, n) && s'.clock == 0 && s'.sampled == s.sampled[n := 0] - {n}
    requires s'.log == s.log[n := Call(0, true)] && s'.entries == AfterMulti(cfg, s.entries, n, 0)
    ensures FilledAtZero(s', n + 1)
  {
    OneMoreEntry(cfg, s.entries, n, 0);
    EntriesAtZero(cfg, s.entries, n);
    FilledLog(s.log, n);
    hide AfterMulti, UpTo;
    assert s'.sampled == map[];
  }

  lemma {:induction false} Fill(cfg: Config, lag: nat, n: nat) returns (steps: seq<Step>, s: State)
    requires n <= cfg.max
    ensures Run(cfg, lag, steps) == Some(s) && FilledAtZero(s, n)
  {
    if n == 0 {
      steps, s := [], Start;
    } else {
      steps, s := Fill(cfg, lag, n - 1);
      hide *;
      FilledFits(cfg, s, n - 1);
      ghost var before := s;
      steps, s := GoSample(cfg, lag, steps, s, n - 1);
      steps, s := GoMulti(cfg, lag, steps, s, n - 1, true);
      FilledMore(cfg, before, s, n - 1);
    }
  }

  lemma FilledFits(cfg: Config, s: State, n: nat)
    requires FilledAtZero(s, n) && n < cfg.max
    ensures |AfterMulti(cfg, s.entries, n, 0)| <= cfg.max && s.clock == 0 && s.sampled == map[] && n !in s.log
  {
    OneMoreEntry(cfg, s.entries, n, 0);
    FilledLog(s.log, n);
    hide AfterMulti;
  }

  lemma EntriesAtZero(cfg: Config, entries: SortedSet, id: Id)
    requires forall m <- entries :: entries[m] == 0
    ensures forall m <- AfterMulti(cfg, entries, id, 0) :: AfterMulti(cfg, entries, id, 0)[m] == 0
  {
  }

  /** More than `max` calls allowed in an interval one longer than what is guarded. */
  ghost predicate Breaks(cfg: Config, lag: nat, s: State) {
    |AllowedIn(s.log, 0, Reach(cfg, lag) + 1)| > cfg.max
  }

  lemma AllAllowed(cfg: Config, lag: nat, s: State)
    requires cfg.max >= 1
    requires FirstAllowed(s.log, cfg.max + 1, Reach(cfg, lag))
    ensures Breaks(cfg, lag, s)
  {
    Subset(UpTo(cfg.max + 1), AllowedIn(s.log, 0, Reach(cfg, lag) + 1));
  }

  /** The first n calls have been allowed, by this instant. */
  ghost predicate FirstAllowed(log: Log, n: nat, until: int) {
    forall i: nat | i < n :: i in log && log[i].allowed && log[i].now <= until
  }

  lemma FilledAllowed(s: State, n: nat, until: nat)
    requires FilledAtZero(s, n)
    ensures FirstAllowed(s.log, n, until) && s.sampled == map[] && s.clock == 0
    ensures n !in s.log && n + 1 !in s.log
  {
    assert n !in s.log.Keys && n + 1 !in s.log.Keys;
  }

  lemma FilledAlone(cfg: Config, s: State, n: nat, id: Id)
    requires FilledAtZero(s, n)
    ensures AfterMulti(cfg, s.entries, id, cfg.windowMs) == map[id := cfg.windowMs]
    ensures |AfterMulti(cfg, s.entries, id, cfg.windowMs)| == 1
  {
    AloneAfter(cfg, s.entries, id, cfg.windowMs);
  }

  /** One more call allowed; calls with other ids do not matter. */
  lemma OneMoreAllowed(log: Log, n: nat, until: int, call: Call)
    requires FirstAllowed(log, n, until) && call.allowed && call.now <= until
    ensures FirstAllowed(log[n := call], n + 1, until)
  {
  }

  lemma LaterIdAllowed(log: Log, n: nat, until: int, id: nat, call: Call)
    requires FirstAllowed(log, n, until) && id >= n
    ensures FirstAllowed(log[id := call], n, until)
  {
  }

  /** With no window every call evicts its own instant. */
  lemma BreakNoWindow(cfg: Config, lag: nat) returns (steps: seq<Step>, s: State)
    requires cfg.max >= 1 && cfg.windowMs == 0
    ensures Run(cfg, lag, steps) == Some(s) && FirstAllowed(s.log, cfg.max + 1, 0)
  {
    hide *;
    var x := cfg.max;
    steps, s := Fill(cfg, lag, x);
    FilledAlone(cfg, s, x, x);
    FilledAllowed(s, x, 0);
    OneMoreAllowed(s.log, x, 0, Call(0, true));
    steps, s := GoSample(cfg, lag, steps, s, x);
    steps, s := GoMulti(cfg, lag, steps, s, x, true);
  }

  /** A call late by `d` finds the first `max` evicted by a call of the present, which it does not count against. */
  lemma BreakLate(cfg: Config, lag: nat, d: nat) returns (steps: seq<Step>, s: State)
    requires cfg.max >= 2 && cfg.windowMs >= 1 && d <= lag && d <= cfg.windowMs
    ensures Run(cfg, lag, steps) == Some(s) && FirstAllowed(s.log, cfg.max + 1, cfg.windowMs - d)
  {
    hide *;
    var x, y, w := cfg.max, cfg.max + 1, cfg.windowMs;
    steps, s := Fill(cfg, lag, x);
    FilledAlone(cfg, s, x, y);
    FilledAllowed(s, x, w - d);
    ghost var before := s;
    steps, s := GoTick(cfg, lag, steps, s, w - d);
    steps, s := GoSample(cfg, lag, steps, s, x);
    steps, s := GoTick(cfg, lag, steps, s, d);
    steps, s := GoSample(cfg, lag, steps, s, y);
    steps, s := GoMulti(cfg, lag, steps, s, y, true);
    LaterIdAllowed(before.log, x, w - d, y, Call(w, true));
    steps, s := LateMulti(cfg, lag, d, steps, s);
  }

  lemma LateMulti(cfg: Config, lag: nat, d: nat, steps: seq<Step>, s: State) returns (steps': seq<Step>, s': State)
    requires Run(cfg, lag, steps) == Some(s) && d <= lag && d <= cfg.windowMs && cfg.max >= 2
    requires s.clock == cfg.windowMs && cfg.max in s.sampled && s.sampled[cfg.max] == cfg.windowMs - d
    requires |s.entries| <= 1 && FirstAllowed(s.log, cfg.max, cfg.windowMs - d)
    ensures Run(cfg, lag, steps') == Some(s') && FirstAllowed(s'.log, cfg.max + 1, cfg.windowMs - d)
  {
    var x, w := cfg.max, cfg.windowMs;
    OneMoreEntry(cfg, s.entries, x, w - d);
    OneMoreAllowed(s.log, x, w - d, Call(w - d, true));
    hide *;
    steps', s' := GoMulti(cfg, lag, steps, s, x, true);
  }

  /** A single call per window: the second comes when the first has just left. */
  lemma BreakNext(w: nat, lag: nat) returns (steps: seq<Step>, s: State)
    requires w >= 1
    ensures Run(Config(1, w), lag, steps) == Some(s) && FirstAllowed(s.log, 2, w)
  {
    hide *;
    var cfg := Config(1, w);
    steps, s := Fill(cfg, lag, 1);
    FilledAlone(cfg, s, 1, 1);
    FilledAllowed(s, 1, w);
    OneMoreAllowed(s.log, 1, w, Call(w, true));
    steps, s := GoTick(cfg, lag, steps, s, w);
    steps, s := GoSample(cfg, lag, steps, s, 1);
    steps, s := GoMulti(cfg, lag, steps, s, 1, true);
  }

  lemma NoneAllowed(until: int)
    ensures FirstAllowed(map[], 0, until)
  {
  }

  lemma AtStart(cfg: Config, lag: nat)
    ensures Run(cfg, lag, []) == Some(Start) && Start == State(0, map[], 0, map[], {}, map[])
  {
  }

  /** A call that outlives the key finds it empty. */
  lemma BreakExpired(lag: nat) returns (steps: seq<Step>, s: State)
    requires lag >= TtlMs(Config(1, 1))
    ensures Run(Config(1, 1), lag, steps) == Some(s) && FirstAllowed(s.log, 2, 0)
  {
    hide *;
    var cfg := Config(1, 1);
    steps, s := [], Start;
    AtStart(cfg, lag);
    AloneAfter(cfg, map[], 0, 0);
    AloneAfter(cfg, map[], 1, 0);
    NoneAllowed(0);
    OneMoreAllowed(map[], 0, 0, Call(0, true));
    OneMoreAllowed(map[0 := Call(0, true)], 1, 0, Call(0, true));
    steps, s := GoSample(cfg, lag, steps, s, 0);
    steps, s := GoSample(cfg, lag, steps, s, 1);
    steps, s := GoMulti(cfg, lag, steps, s, 0, true);
    steps, s := GoTick(cfg, lag, steps, s, TtlMs(cfg));
    steps, s := GoExpire(cfg, lag, steps, s);
    steps, s := GoMulti(cfg, lag, steps, s, 1, true);
  }

  /** Call 0 was allowed at instant 0, and call 1 sampled `w - lag` but has not reached Redis. */
  ghost predicate Overtaken(w: nat, lag: nat, s: State, clock: nat) {
    && s.clock == clock
    && 0 in s.log && s.log[0] == Call(0, true)
    && 1 !in s.log && 1 in s.sampled && s.sampled[1] == w - lag
  }

  lemma ReachOvertaken(w: nat, lag: nat) returns (steps: seq<Step>, s: State)
    requires 2 <= w && 1 <= lag <= w
    ensures Run(Config(1, w), lag, steps) == Some(s) && Overtaken(w, lag, s, w - 1)
    ensures s.entries == map[0 := 0] && s.sampled.Keys == {1} && s.log.Keys == {0}
  {
    var cfg := Config(1, w);
    steps, s := [], Start;
    assert Run(cfg, lag, []) == Some(Start);
    AloneAfter(cfg, map[], 0, 0);
    hide Run, TtlMs, AfterMulti;
    steps, s := GoSample(cfg, lag, steps, s, 0);
    steps, s := GoMulti(cfg, lag, steps, s, 0, true);
    steps, s := GoTick(cfg, lag, steps, s, w - lag);
    steps, s := GoSample(cfg, lag, steps, s, 1);
    steps, s := GoTick(cfg, lag, steps, s, lag - 1);
  }

  /** Call 2 is refused at `w - 1` and leaves its entry behind until its ZREM. */
  lemma RefuseSecond(w: nat, lag: nat, steps: seq<Step>, s: State) returns (steps': seq<Step>, s': State)
    requires 2 <= w && 1 <= lag <= w
    requires Run(Config(1, w), lag, steps) == Some(s) && Overtaken(w, lag, s, w - 1)
    requires s.entries == map[0 := 0] && 2 !in s.sampled && 2 !in s.log
    ensures Run(Config(1, w), lag, steps') == Some(s') && Overtaken(w, lag, s', w - 1)
    ensures s'.entries == map[0 := 0, 2 := w - 1] && 2 in s'.doomed
    ensures s'.sampled.Keys <= s.sampled.Keys && s'.log.Keys == s.log.Keys + {2}
  {
    var cfg := Config(1, w);
    TwoAfter(cfg, s.entries, 0, 2, w - 1);
    hide Run, TtlMs, AfterMulti;
    steps', s' := GoSample(cfg, lag, steps, s, 2);
    steps', s' := GoMulti(cfg, lag, steps', s', 2, false);
  }

  /** Call 3 is refused at `w`, having evicted the entry of call 0; both ZREMs follow. */
  lemma RefuseThird(w: nat, lag: nat, steps: seq<Step>, s: State) returns (steps': seq<Step>, s': State)
    requires 2 <= w && 1 <= lag <= w
    requires Run(Config(1, w), lag, steps) == Some(s) && Overtaken(w, lag, s, w)
    requires s.entries == map[0 := 0, 2 := w - 1] && 2 in s.doomed && 3 !in s.sampled && 3 !in s.log
    ensures Run(Config(1, w), lag, steps') == Some(s') && Overtaken(w, lag, s', w)
    ensures s'.entries == map[2 := w - 1, 3 := w] && s'.doomed >= {2, 3}
  {
    var cfg := Config(1, w);
    TwoAfter(cfg, s.entries, 2, 3, w);
    hide Run, TtlMs, AfterMulti;
    steps', s' := GoSample(cfg, lag, steps, s, 3);
    steps', s' := GoMulti(cfg, lag, steps', s', 3, false);
  }

  /** The clean-ups of calls 2 and 3. */
  lemma CleanUp(w: nat, lag: nat, steps: seq<Step>, s: State) returns (steps': seq<Step>, s': State)
    requires 2 <= w && 1 <= lag <= w
    requires Run(Config(1, w), lag, steps) == Some(s) && Overtaken(w, lag, s, w)
    requires s.entries == map[2 := w - 1, 3 := w] && s.doomed >= {2, 3}
    ensures Run(Config(1, w), lag, steps') == Some(s') && Overtaken(w, lag, s', w) && s'.entries == map[]
  {
    var cfg := Config(1, w);
    hide Run;
    steps', s' := Go(cfg, lag, steps, s, Zrem(2));
    steps', s' := Go(cfg, lag, steps', s', Zrem(3));
  }

  /**
  A single call per window and a late second one: a refused call still waiting for its ZREM makes another call fail
  after that call has already evicted the allowed entry on behalf of a later instant.
  */
  lemma BreakByRefusals(w: nat, lag: nat) returns (steps: seq<Step>, s: State)
    requires 2 <= w && 1 <= lag <= w
    ensures Run(Config(1, w), lag, steps) == Some(s) && FirstAllowed(s.log, 2, w - lag)
  {
    var cfg := Config(1, w);
    AloneAfter(cfg, map[], 1, w - lag);
    steps, s := ReachOvertaken(w, lag);
    steps, s := RefuseSecond(w, lag, steps, s);
    hide Run, TtlMs, AfterMulti, FirstAllowed;
    steps, s := GoTick(cfg, lag, steps, s, 1);
    steps, s := RefuseThird(w, lag, steps, s);
    steps, s := CleanUp(w, lag, steps, s);
    OvertakenAllowed(w, lag, s);
    OneMoreAllowed(s.log, 1, w - lag, Call(w - lag, true));
    steps, s := GoMulti(cfg, lag, steps, s, 1, true);
  }

  lemma OvertakenAllowed(w: nat, lag: nat, s: State)
    requires Overtaken(w, lag, s, w) && lag <= w
    ensures FirstAllowed(s.log, 1, w - lag)
  {
  }

  /** For every positive limit, every window and every lag some run breaks the limit in an interval one longer. */
  lemma LagBoundIsTight(cfg: Config, lag: nat) returns (steps: seq<Step>, s: State)
    requires cfg.max >= 1
    ensures Run(cfg, lag, steps) == Some(s) && Breaks(cfg, lag, s)
  {
    hide Run, Breaks, FirstAllowed;
    var w := cfg.windowMs;
    var d := if lag < w then lag else w;
    if w == 0 {
      steps, s := BreakNoWindow(cfg, lag);
    } else if cfg.max >= 2 {
      steps, s := BreakLate(cfg, lag, d);
    } else if OnePerMillisecond(cfg, lag) || d == 0 {
      steps, s := BreakNext(w, lag);
    } else if w == 1 {
      steps, s := BreakExpired(lag);
    } else {
      steps, s := BreakByRefusals(w, d);
      MoreLag(cfg, d, lag, steps);
    }
    AllAllowed(cfg, lag, s);
  }

  /**
  The limit holds over an interval of some length, in all runs, exactly when the length is at most the window less the
  lag; only a limit of one call per millisecond guards its millisecond for as long as the key lives.
  */
  lemma LimitExact(cfg: Config, lag: nat, length: int)
    ensures Guarded(cfg, lag, length) <==> cfg.max <= 0 || length <= Reach(cfg, lag)
  {
    if cfg.max <= 0 || length <= Reach(cfg, lag) {
      forall steps | Run(cfg, lag, steps).Some?
        ensures LimitEverywhere(cfg, length, Run(cfg, lag, steps).value.log)
      {
        ReachIsGuarded(cfg, lag, length, steps);
      }
    } else {
      var steps, s := LagBoundIsTight(cfg, lag);
      Subset(AllowedIn(s.log, 0, Reach(cfg, lag) + 1), AllowedIn(s.log, 0, 0 + length));
      assert !LimitHolds(cfg, length, s.log, 0);
    }
  }

  // ---------------------------------------------------------------------------------------------
  // Calls that reach Redis in the order of their instants
  // ---------------------------------------------------------------------------------------------

  /** Over all runs in which calls reach Redis in order, no window sees more than `max` allowed calls. */
  ghost predicate GuardedInOrder(cfg: Config, lag: nat) {
    forall steps :: Run(cfg, lag, steps).Some? && RunInOrder(cfg, lag, steps) ==>
      LimitEverywhere(cfg, cfg.windowMs, Run(cfg, lag, steps).value.log)
  }

  /** A run so far, with calls in order. */
  ghost predicate InOrderTo(cfg: Config, lag: nat, steps: seq<Step>, s: State) {
    Run(cfg, lag, steps) == Some(s) && RunInOrder(cfg, lag, steps)
  }

  lemma GoInOrder(cfg: Config, lag: nat, steps: seq<Step>, s: State, step: Step)
    returns (steps': seq<Step>, s': State)
    requires InOrderTo(cfg, lag, steps, s) && Enabled(lag, s, step) && InOrder(s, step)
    ensures s' == Apply(cfg, lag, s, step) && InOrderTo(cfg, lag, steps', s')
  {
    steps', s' := steps + [step], Apply(cfg, lag, s, step);
    assert steps'[..|steps|] == steps;
  }

  /** The TTL is counted from the last MULTI. */
  lemma {:induction false} ExpiryBound(cfg: Config, lag: nat, steps: seq<Step>)
    requires Run(cfg, lag, steps).Some?
    ensures var s := Run(cfg, lag, steps).value; s.expireAt <= s.clock + TtlMs(cfg)
  {
    if steps != [] {
      ExpiryBound(cfg, lag, steps[..|steps| - 1]);
      hide TtlMs, AfterMulti;
    }
  }

  /** Calls that all sampled the instant 0 are in order. */
  lemma {:induction false} ZeroIsInOrder(cfg: Config, lag: nat, steps: seq<Step>)
    requires Run(cfg, lag, steps).Some?
    requires var log := Run(cfg, lag, steps).value.log; forall m <- log :: log[m].now == 0
    ensures RunInOrder(cfg, lag, steps)
  {
    if steps != [] {
      var front, s := steps[..|steps| - 1], Run(cfg, lag, steps).value;
      var before := Run(cfg, lag, front).value;
      RunKeepsInv(cfg, lag, front);
      hide AfterMulti, LimitEverywhere;
      forall m <- before.log ensures before.log[m].now == 0 {
        assert m in s.log && s.log[m] == before.log[m];
      }
      ZeroIsInOrder(cfg, lag, front);
    }
  }

  /** A call that samples the end of the first window and comes so late that the key has expired. */
  lemma GoLate(cfg: Config, lag: nat, steps: seq<Step>, s: State) returns (steps': seq<Step>, s': State)
    requires cfg.max >= 1 && cfg.windowMs >= 1 && cfg.windowMs + lag > TtlMs(cfg) && s.expireAt <= TtlMs(cfg)
    requires InOrderTo(cfg, lag, steps, s) && s.clock == 0 && s.sampled == map[] && cfg.max !in s.log
    requires forall m <- s.log :: s.log[m].now == 0
    ensures InOrderTo(cfg, lag, steps', s') && s'.log == s.log[cfg.max := Call(cfg.windowMs - 1, true)]
  {
    hide InOrderTo, AfterMulti, TtlMs;
    var x, w := cfg.max, cfg.windowMs;
    steps', s' := GoInOrder(cfg, lag, steps, s, Tick(w - 1));
    steps', s' := GoInOrder(cfg, lag, steps', s', Sample(x));
    steps', s' := GoInOrder(cfg, lag, steps', s', Tick(lag));
    steps', s' := GoInOrder(cfg, lag, steps', s', Expire);
    assert s' == s.(clock := w - 1 + lag, sampled := map[x := w - 1], entries := map[]);
    AloneAfter(cfg, map[], x, w - 1);
    steps', s' := GoInOrder(cfg, lag, steps', s', Multi(x));
  }

  lemma BreakInOrder(cfg: Config, lag: nat) returns (steps: seq<Step>, s: State)
    requires cfg.max >= 1 && cfg.windowMs >= 1 && cfg.windowMs + lag > TtlMs(cfg)
    ensures InOrderTo(cfg, lag, steps, s) && FirstAllowed(s.log, cfg.max + 1, cfg.windowMs - 1)
  {
    var x, w := cfg.max, cfg.windowMs;
    steps, s := Fill(cfg, lag, x);
    assert forall m <- s.log :: s.log[m].now == 0;
    FilledAllowed(s, x, w - 1);
    hide FilledAtZero, FirstAllowed, TtlMs, Run, RunInOrder;
    ExpiryBound(cfg, lag, steps);
    ZeroIsInOrder(cfg, lag, steps);
    OneMoreAllowed(s.log, x, w - 1, Call(w - 1, true));
    steps, s := GoLate(cfg, lag, steps, s);
  }

  /**
  In order, the limit holds over the whole window, in all runs, exactly when no call can come later than the TTL exceeds
  the window.
  */
  lemma InOrderExact(cfg: Config, lag: nat)
    ensures GuardedInOrder(cfg, lag) <==> cfg.max <= 0 || cfg.windowMs == 0 || cfg.windowMs + lag <= TtlMs(cfg)
  {
    var w := cfg.windowMs;
    if cfg.max <= 0 || w == 0 || w + lag <= TtlMs(cfg) {
      forall steps | Run(cfg, lag, steps).Some? && RunInOrder(cfg, lag, steps)
        ensures LimitEverywhere(cfg, w, Run(cfg, lag, steps).value.log)
      {
        if cfg.max <= 0 {
          NobodyAllowed(cfg, lag, steps);
          RefusalsHold(cfg, w, Run(cfg, lag, steps).value.log);
        } else if w == 0 {
          EmptyHolds(cfg, w, Run(cfg, lag, steps).value.log);
        } else {
          AtMostMaxInOrder(cfg, lag, steps);
        }
      }
    } else {
      var steps, s := BreakInOrder(cfg, lag);
      Subset(UpTo(cfg.max + 1), AllowedIn(s.log, 0, 0 + w));
      assert !LimitHolds(cfg, w, s.log, 0);
    }
  }
}
