/**
The digest engine of one instance: buffering, threshold and timed flushes, checkpoints and restart recovery.

`Slot` is everything the engine and Redis hold for one `{subscriberId}:{eventType}`; the operations act on each
slot by itself, so the timing results follow one slot through all runs.
*/
module DigestEngine {
  import opened Clock
  import opened DigestKeys
  import opened DigestFlow
  import opened Options
  import opened Sorting

  datatype Config = Config(maxCount: nat, windowMs: nat)

  const LOCK_TTL_MS := 30_000

  function TtlMs(cfg: Config): (ttl: nat)
    ensures cfg.windowMs + 60_000 <= ttl < cfg.windowMs + 61_000
  {
    (CeilSeconds(cfg.windowMs) + 60) * 1000
  }

  datatype Slot = Slot(
    firstEventAt: Option<nat>,   // the in-memory tracking entry
    buffer: seq<Event>, expireAt: nat,      // the sorted set and the instant its TTL fires
    lockUntil: nat)                         // the flush lock, free from this instant on

  /** What Redis still holds of the buffer. */
  function Buffered(s: Slot, now: nat): seq<Event> {
    if now >= s.expireAt then [] else s.buffer
  }

  function AfterAdd(cfg: Config, s: Slot, e: Event): Slot {
    Slot(if s.firstEventAt.Some? then s.firstEventAt else Some(e.timestamp),
         Buffered(s, e.timestamp) + [e], e.timestamp + TtlMs(cfg), s.lockUntil)
  }

  /** A slot whose buffer, lock and tracking entry are all gone. */
  const Flushed := Slot(None, [], 0, 0)

  function AfterFlush(s: Slot, now: nat): (Slot, seq<Event>) {
    if now < s.lockUntil then (s, []) else (Flushed, Batch(Buffered(s, now)))
  }

  predicate Due(cfg: Config, s: Slot, now: int) {
    s.firstEventAt.Some? && now - s.firstEventAt.value >= cfg.windowMs
  }

  /** One round of the poller: a due slot whose lock is taken stays, unless its buffer is gone. */
  function AfterPoll(cfg: Config, s: Slot, now: nat): (Slot, seq<Event>) {
    if !Due(cfg, s, now) then (s, [])
    else if now < s.lockUntil && Buffered(s, now) == [] then (s.(firstEventAt := None), [])
    else AfterFlush(s, now)
  }

  /** What a shutdown makes of a slot: only tracked ones are flushed. */
  function AfterStop(s: Slot, now: nat): (Slot, seq<Event>) {
    if s.firstEventAt.Some? then AfterFlush(s, now) else (s, [])
  }

  /** The batch handed to `onFlush` for a key, if any. */
  function EventsFor(delivered: map<string, seq<Event>>, k: string): seq<Event> {
    if k in delivered then delivered[k] else []
  }

  lemma EventsForNone()
    ensures forall k :: EventsFor(map[], k) == []
  {
  }

  lemma NotDue(cfg: Config, s: Slot, now: nat)
    requires !Due(cfg, s, now)
    ensures AfterPoll(cfg, s, now) == (s, [])
  {
  }

  /** The events are those the slot still holds, sorted by timestamp. */
  ghost predicate Delivers(s: Slot, now: nat, events: seq<Event>) {
    && multiset(events) == (if now < s.expireAt then multiset(s.buffer) else multiset{})
    && Sorted(events, Timestamp())
  }

  lemma FlushDelivers(s: Slot, now: nat)
    ensures s.lockUntil <= now ==> Delivers(s, now, AfterFlush(s, now).1)
  {
    BatchIsSortedBuffer(Buffered(s, now));
    var none: seq<Event> := [];
    assert multiset(none) == multiset{};
    hide Batch, Sorted;
  }

  /** What a flush at `now` makes of a slot: nothing while the lock is held, and otherwise everything. */
  ghost predicate FlushedTo(s: Slot, now: nat, t: Slot, events: seq<Event>) {
    if s.lockUntil <= now
    then Delivers(s, now, events) && t.buffer == [] && t.firstEventAt.None? && t.lockUntil <= now
    else t == s && events == []
  }

  /** What a tick makes of it. */
  ghost predicate PolledTo(cfg: Config, s: Slot, now: nat, t: Slot, events: seq<Event>) {
    if s.firstEventAt.None? || now - s.firstEventAt.value < cfg.windowMs then t == s && events == []
    else if now < s.lockUntil then
      && events == [] && t.buffer == s.buffer && t.lockUntil == s.lockUntil
      && (t.firstEventAt.None? <==> now >= s.expireAt || s.buffer == [])
    else FlushedTo(s, now, t, events)
  }

  /** What a shutdown makes of it. */
  ghost predicate StoppedTo(s: Slot, now: nat, t: Slot, events: seq<Event>) {
    if s.firstEventAt.None? then t == s && events == [] else FlushedTo(s, now, t, events)
  }

  lemma OutcomesDeliver(cfg: Config, s: Slot, now: nat)
    ensures var (t, events) := AfterFlush(s, now); FlushedTo(s, now, t, events)
    ensures var (t, events) := AfterPoll(cfg, s, now); PolledTo(cfg, s, now, t, events)
    ensures var (t, events) := AfterStop(s, now); StoppedTo(s, now, t, events)
  {
    FlushDelivers(s, now);
    hide Batch, Delivers;
  }

  datatype Buffer = Buffer(events: seq<Event>, expireAt: nat)

  class Engine {
    const cfg: Config
    var activeDigests: map<string, nat>
    var polling: bool
    // Redis
    var buffers: map<string, Buffer>
    var locks: map<string, nat>
    var checkpoint: map<string, nat>

    constructor (cfg: Config)
      ensures this.cfg == cfg && !polling && checkpoint == map[]
      ensures forall k :: SlotOf(k) == Flushed
    {
      this.cfg := cfg;
      activeDigests, polling, buffers, locks, checkpoint := map[], false, map[], map[], map[];
    }

    function SlotOf(k: string): Slot
      reads this`activeDigests, this`buffers, this`locks
    {
      var buffer := if k in buffers then buffers[k] else Buffer([], 0);
      Slot(if k in activeDigests then Some(activeDigests[k]) else None,
           buffer.events, buffer.expireAt,
           if k in locks then locks[k] else 0)
    }

    method AddEvent(p: Pair, id: nat, now: nat) returns (thresholdReached: bool)
      modifies this`buffers, this`activeDigests
      ensures SlotOf(MapKey(p)) == AfterAdd(cfg, old(SlotOf(MapKey(p))), Event(id, now))
      ensures forall k | k != MapKey(p) :: SlotOf(k) == old(SlotOf(k))
      ensures var before, after := old(SlotOf(MapKey(p))), SlotOf(MapKey(p));
              && after.buffer == (if now < before.expireAt then before.buffer else []) + [Event(id, now)]
              && after.expireAt == now + TtlMs(cfg) && after.lockUntil == before.lockUntil
              && after.firstEventAt == if before.firstEventAt.Some? then before.firstEventAt else Some(now)
      ensures thresholdReached <==> |SlotOf(MapKey(p)).buffer| >= cfg.maxCount
    {
      var key := MapKey(p);
      var stored := if key in buffers && now < buffers[key].expireAt then buffers[key].events else [];
      stored := stored + [Event(id, now)];
      var count := |stored|;
      buffers := buffers[key := Buffer(stored, now + TtlMs(cfg))];
      if key !in activeDigests {
        activeDigests := activeDigests[key := now];
      }
      thresholdReached := count >= cfg.maxCount;
    }

    /** Takes the lock, empties the buffer in one MULTI, frees the lock, and forgets the key. */
    method FlushKey(key: string, now: nat) returns (locked: bool, events: seq<Event>)
      modifies this`buffers, this`activeDigests, this`locks
      ensures locked <==> old(SlotOf(key)).lockUntil <= now
      ensures (SlotOf(key), events) == AfterFlush(old(SlotOf(key)), now)
      ensures FlushedTo(old(SlotOf(key)), now, SlotOf(key), events)
      ensures forall k | k != key :: SlotOf(k) == old(SlotOf(k))
    {
      OutcomesDeliver(cfg, SlotOf(key), now);
      hide FlushedTo, PolledTo, StoppedTo;
      if key in locks && now < locks[key] {
        return false, [];
      }
      locks := locks[key := now + LOCK_TTL_MS];
      var stored := if key in buffers && now < buffers[key].expireAt then buffers[key].events else [];
      events := Batch(stored);
      buffers := buffers - {key};
      locks := locks - {key};
      activeDigests := activeDigests - {key};
      locked := true;
    }

    method WriteCheckpoint()
      modifies this`checkpoint
      ensures checkpoint == activeDigests
    {
      if activeDigests != map[] {
        var currentFields := checkpoint.Keys;
        checkpoint := checkpoint + activeDigests;
        var stale := currentFields - activeDigests.Keys;
        checkpoint := checkpoint - stale;
      } else {
        checkpoint := map[];
      }
    }

    /** The poller's treatment of one due key. */
    method PollKey(key: string, now: nat) returns (events: seq<Event>)
      requires Due(cfg, SlotOf(key), now)
      modifies this`buffers, this`activeDigests, this`locks
      ensures (SlotOf(key), events) == AfterPoll(cfg, old(SlotOf(key)), now)
      ensures forall k | k != key :: SlotOf(k) == old(SlotOf(k))
    {
      var locked;
      locked, events := FlushKey(key, now);
      if !locked {
        var keyExists := key in buffers && now < buffers[key].expireAt && buffers[key].events != [];
        if !keyExists {
          activeDigests := activeDigests - {key};
        }
      }
    }

    /** One due key of a tick; `delivered` collects the batches handed to `onFlush`. */
    method PollInto(key: string, now: nat, delivered: map<string, seq<Event>>) returns (r: map<string, seq<Event>>)
      requires Due(cfg, SlotOf(key), now) && EventsFor(delivered, key) == []
      modifies this`buffers, this`activeDigests, this`locks
      ensures (SlotOf(key), EventsFor(r, key)) == AfterPoll(cfg, old(SlotOf(key)), now)
      ensures forall k | k != key :: SlotOf(k) == old(SlotOf(k)) && EventsFor(r, k) == EventsFor(delivered, k)
    {
      hide Due, AfterPoll, SlotOf;
      var events := PollKey(key, now);
      r := if events != [] then delivered[key := events] else delivered;
    }

    /** One tick of the poller: checkpoint, then flush every slot that is due. */
    method PollAll(now: nat) returns (delivered: map<string, seq<Event>>)
      modifies this`buffers, this`activeDigests, this`locks, this`checkpoint
      ensures checkpoint == old(activeDigests)
      ensures forall k :: (SlotOf(k), EventsFor(delivered, k)) == AfterPoll(cfg, old(SlotOf(k)), now)
      ensures forall k :: PolledTo(cfg, old(SlotOf(k)), now, SlotOf(k), EventsFor(delivered, k))
    {
      forall k ensures var (t, events) := AfterPoll(cfg, SlotOf(k), now); PolledTo(cfg, SlotOf(k), now, t, events) {
        OutcomesDeliver(cfg, SlotOf(k), now);
      }
      hide PolledTo;
      WriteCheckpoint();
      delivered := map[];
      var expired := set k | k in activeDigests && now - activeDigests[k] >= cfg.windowMs;
      forall k ensures SlotOf(k) == old(SlotOf(k)) && (k in expired <==> Due(cfg, SlotOf(k), now)) {
      }
      forall k | k !in expired ensures AfterPoll(cfg, SlotOf(k), now) == (SlotOf(k), []) {
        NotDue(cfg, SlotOf(k), now);
      }
      hide Due, AfterPoll, SlotOf, EventsFor;
      EventsForNone();
      while expired != {}
        invariant forall k <- expired ::
                    SlotOf(k) == old(SlotOf(k)) && Due(cfg, SlotOf(k), now) && EventsFor(delivered, k) == []
        invariant forall k | k !in expired ::
                    (SlotOf(k), EventsFor(delivered, k)) == AfterPoll(cfg, old(SlotOf(k)), now)
        invariant checkpoint == old(activeDigests)
        decreases expired
      {
        var key :| key in expired;
        delivered := PollInto(key, now, delivered);
        expired := expired - {key};
      }
    }

    /** One key of a shutdown. */
    method FlushInto(key: string, now: nat, delivered: map<string, seq<Event>>) returns (r: map<string, seq<Event>>)
      requires SlotOf(key).firstEventAt.Some? && EventsFor(delivered, key) == []
      modifies this`buffers, this`activeDigests, this`locks
      ensures (SlotOf(key), EventsFor(r, key)) == AfterStop(old(SlotOf(key)), now)
      ensures forall k | k != key :: SlotOf(k) == old(SlotOf(k)) && EventsFor(r, k) == EventsFor(delivered, k)
    {
      hide SlotOf;
      var locked, events := FlushKey(key, now);
      r := if locked && events != [] then delivered[key := events] else delivered;
    }

    /** Shutdown: flushes everything tracked, except what another instance is flushing, and drops the checkpoint. */
    method Stop(now: nat) returns (delivered: map<string, seq<Event>>)
      modifies this
      ensures !polling && checkpoint == map[]
      ensures forall k :: (SlotOf(k), EventsFor(delivered, k)) == AfterStop(old(SlotOf(k)), now)
      ensures forall k :: StoppedTo(old(SlotOf(k)), now, SlotOf(k), EventsFor(delivered, k))
    {
      forall k ensures var (t, events) := AfterStop(SlotOf(k), now); StoppedTo(SlotOf(k), now, t, events) {
        OutcomesDeliver(cfg, SlotOf(k), now);
      }
      hide StoppedTo, AfterStop;
      polling := false;
      delivered := FlushAll(activeDigests.Keys, now);
      checkpoint := map[];
    }

    /** Every tracked key of a shutdown. */
    method FlushAll(keys: set<string>, now: nat) returns (delivered: map<string, seq<Event>>)
      requires forall k :: k in keys <==> SlotOf(k).firstEventAt.Some?
      modifies this`buffers, this`activeDigests, this`locks
      ensures forall k :: (SlotOf(k), EventsFor(delivered, k)) == AfterStop(old(SlotOf(k)), now)
    {
      delivered := map[];
      EventsForNone();
      forall k | k !in keys ensures AfterStop(SlotOf(k), now) == (SlotOf(k), []) {
      }
      hide AfterFlush, SlotOf, EventsFor, AfterStop;
      var toFlush := keys;
      while toFlush != {}
        invariant forall k <- toFlush ::
                    SlotOf(k) == old(SlotOf(k)) && SlotOf(k).firstEventAt.Some? && EventsFor(delivered, k) == []
        invariant forall k | k !in toFlush :: (SlotOf(k), EventsFor(delivered, k)) == AfterStop(old(SlotOf(k)), now)
        decreases toFlush
      {
        var key :| key in toFlush;
        delivered := FlushInto(key, now, delivered);
        toFlush := toFlush - {key};
      }
    }

    /** Tracking one key that the SCAN returned. */
    method Recover(key: string, now: nat)
      modifies this`activeDigests
      ensures activeDigests == Recovered(old(activeDigests), key, now)
    {
      if Includes(key, "flush_lock:") || Includes(key, "_checkpoint") {
        return;
      }
      var rest := WithoutPrefix(key);
      var sep := IndexOf(rest, ':');
      if sep == -1 {
        return;
      }
      var mapKey := rest[..sep] + ":" + rest[sep + 1..];
      if mapKey !in activeDigests {
        activeDigests := activeDigests[mapKey := now];
      }
    }

    method RecoverPage(keys: seq<string>, now: nat)
      modifies this`activeDigests
      ensures activeDigests == RecoveredKeys(old(activeDigests), keys, now)
    {
      var j := 0;
      while j < |keys|
        invariant 0 <= j <= |keys|
        invariant activeDigests == RecoveredKeys(old(activeDigests), keys[..j], now)
      {
        assert keys[..j + 1][..j] == keys[..j];
        Recover(keys[j], now);
        j := j + 1;
      }
      assert keys[..j] == keys;
    }

    /** Restart: the checkpoint first, then every buffer the SCAN finds. `pages` are the SCAN's answers. */
    method StartPolling(pages: seq<seq<string>>, now: nat)
      modifies this`activeDigests, this`polling, this`checkpoint
      ensures polling
      ensures old(polling) ==> activeDigests == old(activeDigests) && checkpoint == old(checkpoint)
      ensures !old(polling) ==>
                activeDigests == RecoveredPages(Restored(old(activeDigests), old(checkpoint)), pages, now)
      ensures !old(polling) ==> checkpoint == map[]
    {
      if polling {
        return;
      }
      activeDigests := Restored(activeDigests, checkpoint);
      ghost var restored := activeDigests;
      var i := 0;
      while i < |pages|
        invariant 0 <= i <= |pages|
        invariant activeDigests == RecoveredPages(restored, pages[..i], now)
      {
        assert pages[..i + 1][..i] == pages[..i];
        RecoverPage(pages[i], now);
        i := i + 1;
      }
      assert pages[..i] == pages;
      checkpoint := map[];
      polling := true;
    }
  }

  // ---------------------------------------------------------------------------------------------
  // Restart recovery
  // ---------------------------------------------------------------------------------------------

  /** The tracking entries after reading the checkpoint hash; a field without a colon is skipped. */
  function Restored(active: map<string, nat>, fields: map<string, nat>): map<string, nat> {
    active + map k | k in fields && ParseMapKey(k).Some? :: fields[k]
  }

  function Recovered(active: map<string, nat>, key: string, now: nat): map<string, nat>
  {
    match ParseScanned(key)
    case None => active
    case Some(p) => if MapKey(p) in active then active else active[MapKey(p) := now]
  }

  function RecoveredKeys(active: map<string, nat>, keys: seq<string>, now: nat): map<string, nat> {
    if keys == [] then active
    else Recovered(RecoveredKeys(active, keys[..|keys| - 1], now), keys[|keys| - 1], now)
  }

  function RecoveredPages(active: map<string, nat>, pages: seq<seq<string>>, now: nat): map<string, nat> {
    if pages == [] then active
    else RecoveredKeys(RecoveredPages(active, pages[..|pages| - 1], now), pages[|pages| - 1], now)
  }

  /** One scanned key: what it denotes is tracked from now on, unless it is already. */
  lemma RecoveredOne(active: map<string, nat>, key: string, now: nat)
    ensures Recovered(active, key, now) ==
            var k := WithoutPrefix(key);
            if ParseScanned(key).Some? && k !in active then active[k := now] else active
  {
    ParseKeepsKey(WithoutPrefix(key));
  }

  /** Some scanned key is recognized and denotes k. */
  ghost predicate Finds(keys: seq<string>, k: string) {
    exists key <- keys :: ParseScanned(key).Some? && WithoutPrefix(key) == k
  }

  ghost predicate FindsIn(pages: seq<seq<string>>, k: string) {
    exists page <- pages :: Finds(page, k)
  }

  /** Tracked are what was tracked, as it was, and what was found, from now on. */
  ghost predicate TracksAlso(after: map<string, nat>, before: map<string, nat>, k: string, found: bool, now: nat) {
    && (k in after <==> k in before || found)
    && (k in after ==> after[k] == if k in before then before[k] else now)
  }

  lemma {:induction false} RecoveredKeysTrack(active: map<string, nat>, keys: seq<string>, now: nat, k: string)
    ensures TracksAlso(RecoveredKeys(active, keys, now), active, k, Finds(keys, k), now)
  {
    if keys != [] {
      var n := |keys| - 1;
      var front := RecoveredKeys(active, keys[..n], now);
      RecoveredKeysTrack(active, keys[..n], now, k);
      RecoveredOne(front, keys[n], now);
      assert keys == keys[..n] + [keys[n]];
      assert Finds(keys, k) <==> Finds(keys[..n], k) || (ParseScanned(keys[n]).Some? && WithoutPrefix(keys[n]) == k);
      hide Finds, Recovered, ParseScanned, WithoutPrefix;
    }
  }

  lemma {:induction false} RecoveredPagesTrack(active: map<string, nat>, pages: seq<seq<string>>, now: nat, k: string)
    ensures TracksAlso(RecoveredPages(active, pages, now), active, k, FindsIn(pages, k), now)
  {
    if pages != [] {
      var n := |pages| - 1;
      RecoveredPagesTrack(active, pages[..n], now, k);
      RecoveredKeysTrack(RecoveredPages(active, pages[..n], now), pages[n], now, k);
      assert pages == pages[..n] + [pages[n]];
      assert FindsIn(pages, k) <==> FindsIn(pages[..n], k) || Finds(pages[n], k);
      hide Finds, FindsIn, RecoveredKeys;
    }
  }

  /** Every scanned key matches the pattern of the SCAN. */
  ghost predicate MatchPattern(pages: seq<seq<string>>) {
    forall page <- pages, key <- page :: PREFIX <= key
  }

  lemma FoundExact(pages: seq<seq<string>>, p: Pair)
    requires MatchPattern(pages)
    ensures FindsIn(pages, MapKey(p)) <==> Scannable(p) && exists page <- pages :: DigestKey(p) in page
  {
    SkippedExact(p);
    assert WithoutPrefix(DigestKey(p)) == MapKey(p);
    hide Scannable, ParseScanned;
    if FindsIn(pages, MapKey(p)) {
      var page :| page in pages && Finds(page, MapKey(p));
      var key :| key in page && ParseScanned(key).Some? && WithoutPrefix(key) == MapKey(p);
      assert key == key[..|PREFIX|] + key[|PREFIX|..] == DigestKey(p);
    } else if page :| page in pages && DigestKey(p) in page {
      assert !Finds(page, MapKey(p));
    }
  }

  /**
  After a restart a buffer is tracked exactly when it was tracked before, or checkpointed, or its key was scanned and
  is not mistaken for a lock or a checkpoint; a checkpointed one keeps the instant of its first event.
  */
  lemma RestartTracksEveryBuffer(
    active: map<string, nat>, fields: map<string, nat>, pages: seq<seq<string>>, now: nat, p: Pair)
    requires MatchPattern(pages)
    ensures
      var after := RecoveredPages(Restored(active, fields), pages, now);
      var scanned := Scannable(p) && exists page <- pages :: DigestKey(p) in page;
      && (MapKey(p) in after <==> MapKey(p) in active || MapKey(p) in fields || scanned)
      && (MapKey(p) in after ==>
            after[MapKey(p)] == if MapKey(p) in fields then fields[MapKey(p)]
                                else if MapKey(p) in active then active[MapKey(p)] else now)
  {
    assert MapKey(p)[|p.subscriberId|] == ':';
    ParseKeepsKey(MapKey(p));
    RecoveredPagesTrack(Restored(active, fields), pages, now, MapKey(p));
    FoundExact(pages, p);
    hide FindsIn, Scannable, RecoveredPages;
  }

  // ---------------------------------------------------------------------------------------------
  // No event outlives its buffer
  // ---------------------------------------------------------------------------------------------

  datatype Op = Wait(ms: nat) | AddNow(id: nat) | FlushNow | Tick | TtlFires

  /**
  One slot of a started engine and the instant of the poller's next tick; and what an observer keeps: the events added,
  those the TTL dropped, and those the flushes gave out.
  */
  datatype Timed = Timed(
    clock: nat, nextTick: nat, slot: Slot, added: multiset<Event>, lost: seq<Event>, given: seq<Event>)

  function Started(cfg: Config): Timed {
    Timed(0, cfg.windowMs, Flushed, multiset{}, [], [])
  }

  /** Redis drops the buffer once its TTL has passed, at the latest when a command touches the key. */
  function Lapsed(t: Timed): Timed {
    if t.clock < t.slot.expireAt then t else t.(slot := t.slot.(buffer := []), lost := t.lost + t.slot.buffer)
  }

  /** A flush of one kind or another, and what it gave out. */
  function Gave(t: Timed, flushed: (Slot, seq<Event>)): Timed {
    t.(slot := flushed.0, given := t.given + flushed.1)
  }

  /** The poller is punctual: time never passes a tick that has not run. */
  predicate Enabled(t: Timed, op: Op) {
    match op
    case Wait(ms) => t.clock + ms <= t.nextTick
    case AddNow(_) => true
    case FlushNow => true
    case Tick => t.clock == t.nextTick
    case TtlFires => t.clock >= t.slot.expireAt
  }

  function Next(cfg: Config, t: Timed, op: Op): Timed
    requires Enabled(t, op)
  {
    match op
    case Wait(ms) => t.(clock := t.clock + ms)
    case AddNow(id) =>
      var e := Event(id, t.clock);
      Lapsed(t).(slot := AfterAdd(cfg, t.slot, e), added := t.added + multiset{e})
    case FlushNow => Gave(Lapsed(t), AfterFlush(Lapsed(t).slot, t.clock))
    case Tick => Gave(Lapsed(t), AfterPoll(cfg, Lapsed(t).slot, t.clock)).(nextTick := t.nextTick + cfg.windowMs)
    case TtlFires => Lapsed(t)
  }

  function Run(cfg: Config, ops: seq<Op>): Option<Timed> {
    RunFrom(cfg, Started(cfg), ops)
  }

  function RunFrom(cfg: Config, start: Timed, ops: seq<Op>): Option<Timed> {
    if ops == [] then Some(start)
    else
      var prefix := RunFrom(cfg, start, ops[..|ops| - 1]);
      var op := ops[|ops| - 1];
      if prefix.Some? && Enabled(prefix.value, op) then Some(Next(cfg, prefix.value, op)) else None
  }

  /** Every event added is buffered, lost to the TTL, or was given out by a flush. */
  ghost predicate Accounted(t: Timed) {
    t.added == multiset(t.slot.buffer) + multiset(t.lost) + multiset(t.given)
  }

  lemma LapseIsAccounted(t: Timed)
    requires Accounted(t)
    ensures Accounted(Lapsed(t)) && Lapsed(t).clock == t.clock
    ensures Lapsed(t).slot.buffer == Buffered(t.slot, t.clock)
    ensures Buffered(Lapsed(t).slot, t.clock) == Lapsed(t).slot.buffer
  {
  }

  /** A flush either leaves the buffer alone and gives out nothing, or empties it and gives out all of it. */
  lemma GiveIsAccounted(t: Timed, flushed: (Slot, seq<Event>))
    requires Accounted(t)
    requires || (flushed.0.buffer == t.slot.buffer && flushed.1 == [])
             || (flushed.0.buffer == [] && multiset(flushed.1) == multiset(t.slot.buffer))
    ensures Accounted(Gave(t, flushed))
  {
    assert t.given + [] == t.given;
  }

  lemma NextIsAccounted(cfg: Config, t: Timed, op: Op)
    requires Enabled(t, op) && Accounted(t)
    ensures Accounted(Next(cfg, t, op))
  {
    var u := Lapsed(t);
    LapseIsAccounted(t);
    OutcomesDeliver(cfg, u.slot, t.clock);
    var none: seq<Event> := [];
    assert multiset(none) == multiset{};
    hide Batch, Sorted, Accounted;
    match op
    case AddNow(id) => AddIsAccounted(cfg, t, Event(id, t.clock));
    case FlushNow => GiveIsAccounted(u, AfterFlush(u.slot, t.clock));
    case Tick =>
      var flushed := AfterPoll(cfg, u.slot, t.clock);
      GiveIsAccounted(u, flushed);
      TickIsAccounted(Gave(u, flushed), t.nextTick + cfg.windowMs);
    case Wait(ms) => WaitIsAccounted(t, t.clock + ms);
    case TtlFires =>
  }

  lemma TickIsAccounted(t: Timed, nextTick: nat)
    requires Accounted(t)
    ensures Accounted(t.(nextTick := nextTick))
  {
  }

  lemma WaitIsAccounted(t: Timed, clock: nat)
    requires Accounted(t)
    ensures Accounted(t.(clock := clock))
  {
  }

  lemma AddIsAccounted(cfg: Config, t: Timed, e: Event)
    requires Accounted(t) && e.timestamp == t.clock
    ensures Accounted(Lapsed(t).(slot := AfterAdd(cfg, t.slot, e), added := t.added + multiset{e}))
  {
    LapseIsAccounted(t);
    assert multiset(Buffered(t.slot, t.clock) + [e]) == multiset(Buffered(t.slot, t.clock)) + multiset{e};
  }

  /** Over every run of additions, flushes, ticks and expiries, whether the poller is punctual enough or not. */
  lemma {:induction false} RunIsAccounted(cfg: Config, start: Timed, ops: seq<Op>)
    requires Accounted(start) && RunFrom(cfg, start, ops).Some?
    ensures Accounted(RunFrom(cfg, start, ops).value)
  {
    if ops != [] {
      RunIsAccounted(cfg, start, ops[..|ops| - 1]);
      hide Accounted, Next, Enabled;
      NextIsAccounted(cfg, RunFrom(cfg, start, ops[..|ops| - 1]).value, ops[|ops| - 1]);
    }
  }

  /** With windows up to a minute the events added are those still buffered and those given out. */
  lemma EverythingIsGiven(cfg: Config, ops: seq<Op>)
    requires 0 < cfg.windowMs <= 60_000 && Run(cfg, ops).Some?
    ensures var t := Run(cfg, ops).value; t.added == multiset(t.slot.buffer) + multiset(t.given)
  {
    RunIsAccounted(cfg, Started(cfg), ops);
    RunIsPunctual(cfg, ops);
  }

  /** A buffer is tracked from its first event on, and its deadline lies before its TTL. */
  ghost predicate Punctual(cfg: Config, t: Timed) {
    && t.clock <= t.nextTick <= t.clock + cfg.windowMs
    && t.slot.lockUntil <= t.clock
    && t.lost == []
    && (t.slot.firstEventAt.None? <==> t.slot.buffer == [])
    && (t.slot.buffer != [] ==>
          var first := t.slot.buffer[0].timestamp;
          && t.slot.firstEventAt == Some(first)
          && first <= t.clock
          && t.nextTick < first + 2 * cfg.windowMs
          && first + TtlMs(cfg) <= t.slot.expireAt)
  }

  lemma NextIsPunctual(cfg: Config, t: Timed, op: Op)
    requires cfg.windowMs > 0 && 2 * cfg.windowMs <= TtlMs(cfg)
    requires Punctual(cfg, t) && Enabled(t, op)
    ensures Punctual(cfg, Next(cfg, t, op))
  {
    hide Batch;
  }

  lemma {:induction false} RunIsPunctual(cfg: Config, ops: seq<Op>)
    requires cfg.windowMs > 0 && 2 * cfg.windowMs <= TtlMs(cfg)
    requires Run(cfg, ops).Some?
    ensures Punctual(cfg, Run(cfg, ops).value)
  {
    if ops != [] {
      RunIsPunctual(cfg, ops[..|ops| - 1]);
      NextIsPunctual(cfg, Run(cfg, ops[..|ops| - 1]).value, ops[|ops| - 1]);
    }
  }

  /** Every buffered event is tracked and leaves the buffer less than two windows after the first event of its batch. */
  lemma FlushedWithinTwoWindows(cfg: Config, ops: seq<Op>)
    requires 0 < cfg.windowMs <= 60_000 && Run(cfg, ops).Some?
    ensures
      var t := Run(cfg, ops).value;
      t.slot.buffer != [] ==>
        && t.slot.firstEventAt == Some(t.slot.buffer[0].timestamp)
        && t.clock < t.slot.buffer[0].timestamp + 2 * cfg.windowMs
        && t.clock < t.slot.expireAt
  {
    RunIsPunctual(cfg, ops);
  }

  ghost predicate NothingIsLost(cfg: Config) {
    forall ops :: Run(cfg, ops).Some? ==> Run(cfg, ops).value.lost == []
  }

  lemma Go(cfg: Config, ops: seq<Op>, t: Timed, op: Op) returns (ops': seq<Op>, t': Timed)
    requires Run(cfg, ops) == Some(t) && Enabled(t, op)
    ensures t' == Next(cfg, t, op) && Run(cfg, ops') == Some(t')
  {
    ops', t' := ops + [op], Next(cfg, t, op);
    assert ops'[..|ops|] == ops;
  }

  /** One event, added just after the start, is not due at the first tick and has expired at the second. */
  lemma LongWindowLoses(cfg: Config) returns (ops: seq<Op>, t: Timed)
    requires cfg.windowMs > 0 && 2 * cfg.windowMs > TtlMs(cfg)
    ensures Run(cfg, ops) == Some(t) && t.lost != []
  {
    ops, t := [], Started(cfg);
    ops, t := Go(cfg, ops, t, Wait(1));
    ops, t := Go(cfg, ops, t, AddNow(0));
    ops, t := Go(cfg, ops, t, Wait(cfg.windowMs - 1));
    ops, t := Go(cfg, ops, t, Tick);
    ops, t := Go(cfg, ops, t, Wait(1 + TtlMs(cfg) - cfg.windowMs));
    ops, t := Go(cfg, ops, t, TtlFires);
  }

  /** No buffered event ever expires unflushed exactly when the TTL is at least two windows. */
  lemma NothingIsLostExact(cfg: Config)
    requires cfg.windowMs > 0
    ensures NothingIsLost(cfg) <==> 2 * cfg.windowMs <= TtlMs(cfg)
  {
    if 2 * cfg.windowMs <= TtlMs(cfg) {
      forall ops | Run(cfg, ops).Some? ensures Run(cfg, ops).value.lost == [] {
        RunIsPunctual(cfg, ops);
      }
    } else {
      var _, _ := LongWindowLoses(cfg);
    }
  }

  // ---------------------------------------------------------------------------------------------
  // After a restart
  // ---------------------------------------------------------------------------------------------

  /** A slot that a start at `now` has found, with the TTL it had before. */
  function Restarted(cfg: Config, slot: Slot, now: nat): Timed {
    Timed(now, now + cfg.windowMs, slot, multiset(slot.buffer), [], [])
  }

  /** Recovered: it is tracked, from an instant that is not in the future. */
  ghost predicate Recovers(slot: Slot, now: nat) {
    slot.buffer != [] && slot.firstEventAt.Some? && slot.firstEventAt.value <= now && slot.lockUntil <= now
  }

  /** The tick that flushes a buffer comes before its TTL. */
  ghost predicate InTime(cfg: Config, t: Timed) {
    && t.clock <= t.nextTick <= t.clock + cfg.windowMs && t.slot.lockUntil <= t.clock && t.lost == []
    && (t.slot.firstEventAt.None? <==> t.slot.buffer == [])
    && (t.slot.firstEventAt.Some? ==>
          var first := t.slot.firstEventAt.value;
          && first <= t.clock
          && (if first + cfg.windowMs <= t.nextTick then t.nextTick else t.nextTick + cfg.windowMs) < t.slot.expireAt)
  }

  lemma NextIsInTime(cfg: Config, t: Timed, op: Op)
    requires cfg.windowMs > 0 && 2 * cfg.windowMs <= TtlMs(cfg) && InTime(cfg, t) && Enabled(t, op)
    ensures InTime(cfg, Next(cfg, t, op))
  {
    hide Batch;
  }

  lemma {:induction false} RunIsInTime(cfg: Config, start: Timed, ops: seq<Op>)
    requires cfg.windowMs > 0 && 2 * cfg.windowMs <= TtlMs(cfg) && InTime(cfg, start)
    requires RunFrom(cfg, start, ops).Some?
    ensures InTime(cfg, RunFrom(cfg, start, ops).value)
  {
    if ops != [] {
      RunIsInTime(cfg, start, ops[..|ops| - 1]);
      hide InTime, Next, Enabled;
      NextIsInTime(cfg, RunFrom(cfg, start, ops[..|ops| - 1]).value, ops[|ops| - 1]);
    }
  }

  /** Whatever follows, no event of the slot expires. */
  ghost predicate NothingIsLostFrom(cfg: Config, start: Timed) {
    forall ops :: RunFrom(cfg, start, ops).Some? ==> RunFrom(cfg, start, ops).value.lost == []
  }

  /** The TTL a restart finds fires before the first tick. */
  lemma OldTtlFires(cfg: Config, slot: Slot, now: nat) returns (ops: seq<Op>)
    requires slot.buffer != [] && slot.expireAt <= now + cfg.windowMs
    ensures var end := RunFrom(cfg, Restarted(cfg, slot, now), ops); end.Some? && end.value.lost != []
  {
    var start := Restarted(cfg, slot, now);
    var ms := if slot.expireAt <= now then 0 else slot.expireAt - now;
    ops := [Wait(ms), TtlFires];
    assert ops[..1][..0] == [] && RunFrom(cfg, start, ops[..1][..0]) == Some(start);
    assert RunFrom(cfg, start, ops[..1]) == Some(start.(clock := now + ms));
  }

  /**
  A recovered buffer is flushed at the first tick after the restart, whether it keeps the instant of its first event or
  was only found by the SCAN. Nothing of it is ever lost exactly when the TTL it had before lasts beyond that tick.
  */
  lemma RestartIsInTimeExact(cfg: Config, slot: Slot, now: nat)
    requires cfg.windowMs > 0 && 2 * cfg.windowMs <= TtlMs(cfg) && Recovers(slot, now)
    ensures NothingIsLostFrom(cfg, Restarted(cfg, slot, now)) <==> now + cfg.windowMs < slot.expireAt
    ensures AfterPoll(cfg, slot, now + cfg.windowMs).0.buffer == []
  {
    var start := Restarted(cfg, slot, now);
    if now + cfg.windowMs < slot.expireAt {
      assert InTime(cfg, start);
      forall ops | RunFrom(cfg, start, ops).Some? ensures RunFrom(cfg, start, ops).value.lost == [] {
        RunIsInTime(cfg, start, ops);
      }
    } else {
      var _ := OldTtlFires(cfg, slot, now);
    }
    hide Batch;
  }
}
