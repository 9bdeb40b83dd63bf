/**
What becomes of every action, over the runs of the offline queue in which nothing changes the queue while a restore is
due or under way. (ActionQueue shows what is lost otherwise.) Writes land late and crashes come at any moment.
*/
module ActionQueueRuns {
  import opened Options
  import opened Sets
  import opened ActionQueue

  /** The event changes the queue. */
  predicate Touches(s: State, e: Event) {
    e.Enqueue? || e.Clear? || EndsReplay(s, e)
  }

  /** A restore called now would change the queue, as after a restart. */
  predicate Due(s: State) {
    Loaded(Latest(s), s.queue) != s.queue
  }

  predicate Orderly(s: State, e: Event) {
    Touches(s, e) ==> s.reading.None? && !Due(s)
  }

  ghost predicate RunIsOrderly(max: nat, s: State, events: seq<Event>)
    decreases events
  {
    events == [] || (Orderly(s, events[0]) && RunIsOrderly(max, Apply(max, s, events[0]), events[1..]))
  }

  /** The queue, or while a restore is due what it will bring back. */
  function Home(s: State): seq<Action> {
    Loaded(Latest(s), s.queue)
  }

  ghost predicate Blank(s: State) {
    s.queue == [] && s.writes == [] && s.phase.Idle?
  }

  /** The last write called holds the queue, unless a process has just begun. */
  ghost predicate SyncInv(s: State) {
    && (Latest(s) == Saved(s.queue) || Blank(s))
    && (s.reading.Some? ==> s.reading.value.item == Latest(s))
    && (Due(s) ==> s.since == |s.log|)
    && (s.phase.Persisting? ==> s.phase.ahead <= |s.writes|)
  }

  lemma StepKeepsSync(max: nat, s: State, e: Event)
    requires SyncInv(s) && Orderly(s, e)
    ensures SyncInv(Apply(max, s, e))
  {
    hide IdsOf, Shift;
  }

  lemma HomeAfter(max: nat, s: State, e: Event)
    requires SyncInv(s) && Orderly(s, e)
    ensures var t := Apply(max, s, e);
            Home(t) == if Touches(s, e) then t.queue else if e.Crash? then Loaded(s.stored, []) else Home(s)
    ensures Touches(s, e) || !s.phase.Idle? || s.queue != [] ==> Home(s) == s.queue
  {
    hide IdsOf, Shift;
  }

  // ---------------------------------------------------------------------------------------------
  // Replays go up the enqueue order
  // ---------------------------------------------------------------------------------------------

  /** Since the last crash the calls go up the history, behind everything that waits. */
  ghost predicate InOrder(log: seq<Call>, since: nat) {
    forall i, j | since <= i < j < |log| :: log[i].action.id <= log[j].action.id
  }

  ghost predicate Behind(log: seq<Call>, since: nat, home: seq<Action>, phase: Phase) {
    forall k, a <- home | since <= k < |log| ::
      log[k].action.id <= a.id && (log[k].action.id == a.id ==> phase.Replaying? && a == phase.action)
  }

  ghost predicate OrderInv(s: State) {
    InOrder(s.log, s.since) && Behind(s.log, s.since, Home(s), s.phase)
  }

  ghost predicate FullInv(max: nat, s: State) {
    Inv(max, s) && SyncInv(s) && OrderInv(s)
  }

  /** The action being replayed is at the head of the queue or no longer in it. */
  lemma ReplayedIsFirst(max: nat, s: State)
    requires FullInv(max, s) && s.phase.Replaying?
    ensures s.phase.action.id in Replayed(s.log) && Home(s) == s.queue
    ensures forall a <- Shift(s.queue) :: a.id != s.phase.action.id
    ensures s.phase.action.id in IdsOf(s.queue) ==> s.queue[0].id == s.phase.action.id
  {
    HomeAfter(max, s, Flush);
    var last := |s.log| - 1;
    assert s.log[last] in s.log;
    forall i | 0 <= i < |s.queue| && s.queue[i].id == s.phase.action.id ensures i == 0 {
      assert s.queue[0] in s.queue && s.log[last].action.id <= s.queue[0].id;
    }
  }

  lemma EnqueuedIsBehind(max: nat, s: State, body: string)
    requires max >= 1 && FullInv(max, s) && Orderly(s, Enqueue(body))
    ensures OrderInv(Apply(max, s, Enqueue(body)))
  {
    HomeAfter(max, s, Enqueue(body));
    var t := Apply(max, s, Enqueue(body));
    forall k, a <- Home(t) | t.since <= k < |t.log|
      ensures t.log[k].action.id <= a.id && (t.log[k].action.id == a.id ==> t.phase.Replaying? && a == t.phase.action)
    {
      assert t.log[k] in s.log && t.log[k].action.id < |s.history|;
      if a.id != |s.history| {
        assert a in s.queue;
      }
    }
  }

  lemma RemovedIsBehind(max: nat, s: State, e: Event)
    requires max >= 1 && FullInv(max, s) && Orderly(s, e) && EndsReplay(s, e)
    ensures OrderInv(Apply(max, s, e))
  {
    HomeAfter(max, s, e);
    ReplayedIsFirst(max, s);
    var t := Apply(max, s, e);
    forall k, a <- Home(t) | t.since <= k < |t.log| ensures t.log[k].action.id < a.id {
      assert a in Shift(s.queue) && a in s.queue;
    }
  }

  lemma NextIsBehind(max: nat, s: State)
    requires max >= 1 && FullInv(max, s) && (s.phase.Idle? || s.phase == Persisting(0)) && s.queue != []
    ensures OrderInv(NextReplay(s))
  {
    HomeAfter(max, s, Flush);
    var t := NextReplay(s);
    assert Latest(t) == Latest(s);
    var head := s.queue[0];
    assert head in s.queue;
    forall a <- s.queue ensures head.id <= a.id && (head.id == a.id ==> a == head) {
      var i :| 0 <= i < |s.queue| && s.queue[i] == a;
    }
    hide SyncInv, Inv;
  }

  lemma CrashIsBehind(s: State)
    ensures OrderInv(Crashed(s))
  {
    hide Home;
  }

  lemma PhaseStays(max: nat, s: State, e: Event)
    requires Apply(max, s, e).log == s.log && !e.Crash? && !EndsReplay(s, e)
    ensures var t := Apply(max, s, e);
            && t.since == s.since && t.phase.Replaying? == s.phase.Replaying?
            && (s.phase.Replaying? ==> t.phase == s.phase)
  {
    hide Latest, Loaded, IdsOf;
  }

  /** Nothing waits now that did not wait before. */
  lemma HomeShrinks(max: nat, s: State, e: Event)
    requires SyncInv(s) && Orderly(s, e) && !e.Crash? && !e.Enqueue? && !EndsReplay(s, e)
    ensures forall a <- Home(Apply(max, s, e)) :: a in Home(s)
  {
    HomeAfter(max, s, e);
    hide Home, SyncInv, Orderly;
  }

  lemma SameIsBehind(max: nat, s: State, e: Event)
    requires FullInv(max, s) && Orderly(s, e) && Apply(max, s, e).log == s.log
    requires !e.Crash? && !e.Enqueue? && !EndsReplay(s, e)
    ensures OrderInv(Apply(max, s, e))
  {
    HomeShrinks(max, s, e);
    PhaseStays(max, s, e);
    hide Home, SyncInv, Inv, Apply, Orderly, EndsReplay;
  }

  lemma StepKeepsOrder(max: nat, s: State, e: Event)
    requires max >= 1 && FullInv(max, s) && Orderly(s, e)
    ensures OrderInv(Apply(max, s, e))
  {
    var t := Apply(max, s, e);
    NewCall(max, s, e);
    if e.Enqueue? {
      EnqueuedIsBehind(max, s, e.body);
    } else if EndsReplay(s, e) {
      RemovedIsBehind(max, s, e);
    } else if e.Crash? {
      CrashIsBehind(s);
    } else if t.log == s.log {
      SameIsBehind(max, s, e);
    } else if s.phase.Replaying? {
      SecondIsBehind(max, s);
    } else {
      NextIsBehind(max, s);
    }
  }

  lemma SecondIsBehind(max: nat, s: State)
    requires FullInv(max, s) && s.phase.Replaying?
    ensures OrderInv(s.(log := s.log + [Call(s.phase.action, true)], phase := Replaying(s.phase.action, true)))
  {
    var t := s.(log := s.log + [Call(s.phase.action, true)], phase := Replaying(s.phase.action, true));
    assert Latest(t) == Latest(s) && Home(t) == Home(s);
    hide Home, SyncInv, ListsInv, CallsInv;
    assert s.log[|s.log| - 1].action == s.phase.action;
  }

  lemma StepKeepsFull(max: nat, s: State, e: Event)
    requires max >= 1 && FullInv(max, s) && Orderly(s, e)
    ensures FullInv(max, Apply(max, s, e))
  {
    StepKeepsInv(max, s, e);
    StepKeepsSync(max, s, e);
    StepKeepsOrder(max, s, e);
  }

  lemma AtTheStart(max: nat)
    ensures FullInv(max, Init)
  {
  }

  /**
  The last write called always holds the queue, so that a restore of a running queue changes nothing and one after a
  crash brings back what has landed; and between two crashes the replays go up the enqueue order.
  */
  lemma {:induction false} OrderlyRunsKeepOrder(max: nat, s: State, events: seq<Event>)
    requires max >= 1 && FullInv(max, s) && RunIsOrderly(max, s, events)
    ensures FullInv(max, Run(max, s, events))
    decreases events
  {
    hide Apply, FullInv, Orderly;
    if events != [] {
      StepKeepsFull(max, s, events[0]);
      OrderlyRunsKeepOrder(max, Apply(max, s, events[0]), events[1..]);
    }
  }

  // ---------------------------------------------------------------------------------------------
  // What is lost
  // ---------------------------------------------------------------------------------------------

  /** Neither waiting, nor replayed, nor evicted or cleared. */
  ghost predicate Missing(s: State, i: nat) {
    i < |s.history| && Unaccounted(s, i) && i !in IdsOf(Home(s))
  }

  ghost predicate Unaccounted(s: State, i: nat) {
    i !in Replayed(s.log) && i !in s.discarded
  }

  /** A replay ends and the action taken off the queue is not the one that was replayed. */
  ghost predicate Overtakes(s: State, e: Event) {
    EndsReplay(s, e) && s.queue != [] && s.queue[0] != s.phase.action
  }

  /** The step loses the action: it is taken off in place of another, or a crash finds it waiting but not stored. */
  ghost predicate Loses(s: State, e: Event, i: nat) {
    Unaccounted(s, i) && ((Overtakes(s, e) && s.queue[0].id == i)
                          || (e.Crash? && i in IdsOf(Home(s)) && i !in ItemIds(s.stored)))
  }

  /** A crash brings it back: storage still holds it. */
  ghost predicate BringsBack(s: State, e: Event, i: nat) {
    e.Crash? && i in ItemIds(s.stored)
  }

  lemma HomeIsOld(max: nat, s: State, i: nat)
    requires Inv(max, s) && i in IdsOf(Home(s))
    ensures i < |s.history|
  {
    var item := Latest(s);
    assert item == s.stored || item.actions in s.writes;
  }

  lemma ReplayLosesExact(max: nat, s: State, e: Event, i: nat)
    requires max >= 1 && FullInv(max, s) && Orderly(s, e) && EndsReplay(s, e)
    ensures Missing(Apply(max, s, e), i) <==> Missing(s, i) || Loses(s, e, i)
  {
    HomeAfter(max, s, e);
    ReplayedIsFirst(max, s);
    IdsOfShift(s.queue);
    var t := Apply(max, s, e);
    assert t.log == s.log && t.discarded == s.discarded && t.history == s.history && Home(t) == Shift(s.queue);
    if s.queue != [] {
      IdsAreDistinct(max, s.queue, s.history);
      assert s.queue[0] in s.queue;
      SameIdSameAction(max, s, s.queue[0]);
    }
    hide Home, IdsOf, Replayed, FullInv, Inv, SyncInv, OrderInv, Shift;
  }

  lemma SameIdSameAction(max: nat, s: State, a: Action)
    requires Inv(max, s) && s.phase.Replaying? && a in s.queue
    ensures a.id == s.phase.action.id ==> a == s.phase.action
  {
    assert s.log[|s.log| - 1] in s.log;
  }

  lemma QueueChangeLosesNothing(max: nat, s: State, e: Event, i: nat)
    requires max >= 1 && FullInv(max, s) && Orderly(s, e) && (e.Enqueue? || e.Clear?)
    ensures Missing(Apply(max, s, e), i) <==> Missing(s, i)
  {
    HomeAfter(max, s, e);
    IdsOfShift(s.queue);
    NewIsUnknown(max, s);
    if e.Enqueue? {
      EnqueuedIds(max, s, e.body);
    }
    assert IdsOf([]) == {};
    if i in IdsOf(Home(s)) {
      HomeIsOld(max, s, i);
    }
    if i in s.discarded {
      assert i < |s.history|;
    }
    hide Home, IdsOf, Replayed, FullInv, Inv, SyncInv, OrderInv, Shift;
  }

  lemma CrashLosesExact(max: nat, s: State, i: nat)
    requires Inv(max, s)
    ensures Missing(Crashed(s), i) <==> (Missing(s, i) && !BringsBack(s, Crash, i)) || Loses(s, Crash, i)
  {
    var t := Crashed(s);
    assert IdsOf([]) == {};
    assert IdsOf(Home(t)) == ItemIds(s.stored) && t.log == s.log && t.discarded == s.discarded;
    if i in IdsOf(Home(s)) {
      HomeIsOld(max, s, i);
    }
    hide Home, IdsOf, Replayed, Inv;
  }

  lemma OtherLosesNothing(max: nat, s: State, e: Event, i: nat)
    requires max >= 1 && FullInv(max, s) && Orderly(s, e) && !Touches(s, e) && !e.Crash?
    ensures Missing(Apply(max, s, e), i) <==> Missing(s, i)
  {
    HomeAfter(max, s, e);
    StepReplays(max, s, e);
    IdsOfShift(s.queue);
    SameHistory(max, s, e);
    hide Home, IdsOf, Replayed, Inv, SyncInv, OrderInv, Shift, Apply, Due;
  }

  lemma SameHistory(max: nat, s: State, e: Event)
    requires !Touches(s, e)
    ensures Apply(max, s, e).history == s.history && Apply(max, s, e).discarded == s.discarded
  {
    hide IdsOf, Latest, Loaded;
  }

  lemma StepLosesExact(max: nat, s: State, e: Event, i: nat)
    requires max >= 1 && FullInv(max, s) && Orderly(s, e)
    ensures Missing(Apply(max, s, e), i) <==> (Missing(s, i) && !BringsBack(s, e, i)) || Loses(s, e, i)
  {
    if EndsReplay(s, e) {
      ReplayLosesExact(max, s, e, i);
    } else if Touches(s, e) {
      QueueChangeLosesNothing(max, s, e, i);
      hide Missing, Unaccounted;
    } else if e.Crash? {
      CrashLosesExact(max, s, i);
      hide Missing, Loses, BringsBack;
    } else {
      OtherLosesNothing(max, s, e, i);
      hide Missing, Unaccounted;
    }
  }

  ghost predicate RunBringsBack(max: nat, s: State, events: seq<Event>, i: nat)
    decreases events
  {
    events != [] && (BringsBack(s, events[0], i) || RunBringsBack(max, Apply(max, s, events[0]), events[1..], i))
  }

  /** Some step of the run loses the action, and no crash after it brings it back. */
  ghost predicate RunLoses(max: nat, s: State, events: seq<Event>, i: nat)
    decreases events
  {
    events != [] &&
    var t, rest := Apply(max, s, events[0]), events[1..];
    (Loses(s, events[0], i) && !RunBringsBack(max, t, rest, i)) || RunLoses(max, t, rest, i)
  }

  lemma {:induction false} RunLosesExact(max: nat, s: State, events: seq<Event>, i: nat)
    requires max >= 1 && FullInv(max, s) && RunIsOrderly(max, s, events)
    ensures Missing(Run(max, s, events), i)
            <==> (Missing(s, i) && !RunBringsBack(max, s, events, i)) || RunLoses(max, s, events, i)
    decreases events
  {
    hide Apply, FullInv, Orderly, Missing, BringsBack, Loses;
    if events != [] {
      StepLosesExact(max, s, events[0], i);
      StepKeepsFull(max, s, events[0]);
      RunLosesExact(max, Apply(max, s, events[0]), events[1..], i);
    }
  }

  /**
  An action is missing, neither waiting nor replayed nor evicted nor cleared, exactly when a replay's end took it off in
  place of another, or a crash found it waiting but not stored, and no later crash found it stored still.
  */
  lemma LostExact(max: nat, events: seq<Event>, i: nat)
    requires max >= 1 && RunIsOrderly(max, Init, events)
    ensures Missing(Run(max, Init, events), i) <==> RunLoses(max, Init, events, i)
  {
    AtTheStart(max);
    RunLosesExact(max, Init, events, i);
    assert !Missing(Init, i);
  }

  // ---------------------------------------------------------------------------------------------
  // What has landed is safe
  // ---------------------------------------------------------------------------------------------

  /** While a replay is pending no enqueue evicts and nothing is cleared. */
  predicate Calm(max: nat, s: State, e: Event) {
    s.phase.Replaying? ==> !e.Clear? && !(e.Enqueue? && |s.queue| >= max)
  }

  ghost predicate RunIsCalm(max: nat, s: State, events: seq<Event>)
    decreases events
  {
    events == [] || (Calm(max, s, events[0]) && RunIsCalm(max, Apply(max, s, events[0]), events[1..]))
  }

  /** What storage holds now and after each write in flight. */
  function Snaps(s: State): seq<set<nat>> {
    [ItemIds(s.stored)] + seq(|s.writes|, k requires 0 <= k < |s.writes| => IdsOf(s.writes[k]))
  }

  lemma SnapsAfter(max: nat, s: State, e: Event)
    ensures
      var before, after := Snaps(s), Snaps(Apply(max, s, e));
      after == if Touches(s, e) then before + [IdsOf(Apply(max, s, e).queue)]
               else if e.Land? && s.writes != [] then before[1..]
               else if e.Crash? then [before[0]] else before
  {
    hide IdsOf, Shift;
    var t := Apply(max, s, e);
    if Touches(s, e) {
      assert t.writes == s.writes + [t.queue] && t.stored == s.stored;
    }
  }

  /** What needs no place any more. */
  function Done(s: State): set<nat> {
    s.discarded + Replayed(s.log)
  }

  /** Whatever storage holds now or will hold is waiting or done, and so is whatever it ever held. */
  ghost predicate Chain(snaps: seq<set<nat>>, home: set<nat>, done: set<nat>, landed: set<nat>) {
    && snaps != []
    && (forall j, k | 0 <= j <= k < |snaps| :: snaps[j] <= snaps[k] + done)
    && snaps[|snaps| - 1] <= home + done
    && landed <= snaps[0] + done && snaps[0] <= landed
  }

  ghost predicate ChainInv(s: State) {
    Chain(Snaps(s), IdsOf(Home(s)), Done(s), s.landed)
  }

  lemma ChainMore(
    snaps: seq<set<nat>>, home: set<nat>, done: set<nat>, landed: set<nat>, queued: set<nat>, done': set<nat>)
    requires Chain(snaps, home, done, landed) && done <= done' && home <= queued + done'
    ensures Chain(snaps + [queued], queued, done', landed)
  {
    var n, after := |snaps|, snaps + [queued];
    forall j, k | 0 <= j <= k < |after| ensures after[j] <= after[k] + done' {
      if j < n {
        assert snaps[j] <= snaps[n - 1] + done && (k < n ==> snaps[j] <= snaps[k] + done);
      }
    }
  }

  lemma ChainLess(snaps: seq<set<nat>>, home: set<nat>, done: set<nat>, landed: set<nat>)
    requires Chain(snaps, home, done, landed) && |snaps| > 1
    ensures Chain(snaps[1..], home, done, landed + snaps[1])
  {
    assert snaps[0] <= snaps[1] + done;
  }

  lemma ChainOn(snaps: seq<set<nat>>, home: set<nat>, done: set<nat>, landed: set<nat>, done': set<nat>)
    requires Chain(snaps, home, done, landed) && done <= done'
    ensures Chain(snaps, home, done', landed) && Chain([snaps[0]], snaps[0], done', landed)
  {
    forall j, k | 0 <= j <= k < |snaps| ensures snaps[j] <= snaps[k] + done' {
      assert snaps[j] <= snaps[k] + done;
    }
  }

  ghost predicate CalmInv(max: nat, s: State) {
    FullInv(max, s) && AtHead(s) && ChainInv(s)
  }

  lemma StepKeepsHead(max: nat, s: State, e: Event)
    requires max >= 1 && FullInv(max, s) && AtHead(s) && Orderly(s, e) && Calm(max, s, e)
    ensures AtHead(Apply(max, s, e))
  {
    HomeAfter(max, s, e);
    NewCall(max, s, e);
    hide Inv, OrderInv, IdsOf;
  }

  lemma DoneGrows(max: nat, s: State, e: Event)
    requires Pending(s)
    ensures Done(s) <= Done(Apply(max, s, e))
    ensures e.Land? || s.landed == Apply(max, s, e).landed
  {
    StepReplays(max, s, e);
    hide Replayed, IdsOf;
  }

  lemma RemovedIsDone(max: nat, s: State, e: Event)
    requires FullInv(max, s) && AtHead(s) && EndsReplay(s, e)
    ensures IdsOf(s.queue) <= IdsOf(Shift(s.queue)) + Replayed(s.log)
    ensures Apply(max, s, e).queue == Shift(s.queue) && Apply(max, s, e).log == s.log
  {
    IdsOfShift(s.queue);
    ReplayedIsFirst(max, s);
    hide FullInv, Replayed, IdsOf, Shift;
  }

  /** What leaves the queue is done. */
  lemma LeaversAreDone(max: nat, s: State, e: Event)
    requires CalmInv(max, s) && Orderly(s, e) && Touches(s, e)
    ensures IdsOf(s.queue) <= IdsOf(Apply(max, s, e).queue) + Done(Apply(max, s, e))
  {
    if e.Enqueue? {
      IdsOfShift(s.queue);
      EnqueuedIds(max, s, e.body);
      hide CalmInv, Replayed, IdsOf, Shift;
    } else if e.Clear? {
      hide CalmInv, Replayed, IdsOf, Shift;
    } else {
      RemovedIsDone(max, s, e);
      hide Apply, CalmInv, Replayed, IdsOf, Shift;
    }
  }

  lemma TouchKeepsChain(max: nat, s: State, e: Event)
    requires max >= 1 && CalmInv(max, s) && Orderly(s, e) && Touches(s, e)
    ensures ChainInv(Apply(max, s, e))
  {
    var t := Apply(max, s, e);
    HomeAfter(max, s, e);
    SnapsAfter(max, s, e);
    DoneGrows(max, s, e);
    LeaversAreDone(max, s, e);
    hide Done, Snaps, Home, FullInv, IdsOf, Apply, Chain;
    ChainMore(Snaps(s), IdsOf(Home(s)), Done(s), s.landed, IdsOf(t.queue), Done(t));
  }

  lemma LandKeepsChain(max: nat, s: State)
    requires max >= 1 && CalmInv(max, s)
    ensures ChainInv(Apply(max, s, Land))
  {
    var t := Apply(max, s, Land);
    HomeAfter(max, s, Land);
    SnapsAfter(max, s, Land);
    if s.writes == [] {
      assert t == s;
    } else {
      assert Done(t) == Done(s) && t.landed == s.landed + Snaps(s)[1] && Home(t) == Home(s) && |Snaps(s)| > 1;
      hide Done, Snaps, Home, FullInv, IdsOf, Apply, Chain;
      ChainLess(Snaps(s), IdsOf(Home(s)), Done(s), s.landed);
    }
  }

  lemma ChainOf(s: State)
    ensures ChainInv(s) <==> Chain(Snaps(s), IdsOf(Home(s)), Done(s), s.landed)
  {
    hide Chain;
  }

  lemma CrashKeepsChain(s: State)
    requires ChainInv(s)
    ensures ChainInv(Crashed(s))
  {
    assert Crashed(s).landed == s.landed && Done(Crashed(s)) == Done(s);
    hide *;
    CrashFacts(s);
    ChainOf(s);
    ChainOf(Crashed(s));
    ChainOn(Snaps(s), IdsOf(Home(s)), Done(s), s.landed, Done(s));
  }

  lemma OtherKeepsChain(max: nat, s: State, e: Event)
    requires max >= 1 && CalmInv(max, s) && Orderly(s, e) && !Touches(s, e) && !e.Land? && !e.Crash?
    ensures ChainInv(Apply(max, s, e))
  {
    DoneGrows(max, s, e);
    var t := Apply(max, s, e);
    hide FullInv, Home, Snaps, Done, Apply, Chain, IdsOf, Orderly, Touches;
    HomeStays(max, s, e);
    ChainOn(Snaps(s), IdsOf(Home(s)), Done(s), s.landed, Done(t));
  }

  lemma StepKeepsCalm(max: nat, s: State, e: Event)
    requires max >= 1 && CalmInv(max, s) && Orderly(s, e) && Calm(max, s, e)
    ensures CalmInv(max, Apply(max, s, e))
  {
    StepKeepsFull(max, s, e);
    StepKeepsHead(max, s, e);
    if Touches(s, e) {
      TouchKeepsChain(max, s, e);
    } else if e.Land? {
      LandKeepsChain(max, s);
    } else if e.Crash? {
      CrashKeepsChain(s);
    } else {
      OtherKeepsChain(max, s, e);
    }
  }

  lemma CalmAtTheStart(max: nat)
    ensures CalmInv(max, Init)
  {
    AtTheStart(max);
  }

  lemma {:induction false} CalmRunsKeepChain(max: nat, s: State, events: seq<Event>)
    requires max >= 1 && CalmInv(max, s) && RunIsOrderly(max, s, events) && RunIsCalm(max, s, events)
    ensures CalmInv(max, Run(max, s, events))
    decreases events
  {
    hide Apply, CalmInv, Orderly, Calm;
    if events != [] {
      StepKeepsCalm(max, s, events[0]);
      CalmRunsKeepChain(max, Apply(max, s, events[0]), events[1..]);
    }
  }

  /**
  An action whose write has ever landed is waiting, or was evicted or cleared, or has been replayed, whenever and
  however often the process dies, if nothing is evicted or cleared while a replay is pending.
  */
  lemma CalmRunsLoseNothing(max: nat, events: seq<Event>, i: nat)
    requires max >= 1 && RunIsOrderly(max, Init, events) && RunIsCalm(max, Init, events)
    ensures var t := Run(max, Init, events);
            i in t.landed ==> i in IdsOf(Home(t)) || i in t.discarded || i in Replayed(t.log)
  {
    CalmAtTheStart(max);
    CalmRunsKeepChain(max, Init, events);
    var t := Run(max, Init, events);
    hide Run, Snaps, Home, FullInv, Replayed;
    var snaps := Snaps(t);
    assert snaps[0] <= snaps[|snaps| - 1] + Done(t);
  }

  /** A crash finds the action waiting in a queue no write of which has landed. */
  ghost predicate DropsUnlanded(s: State, e: Event, i: nat) {
    e.Crash? && Unaccounted(s, i) && i in IdsOf(s.queue) && i !in s.landed
  }

  ghost predicate RunDropsUnlanded(max: nat, s: State, events: seq<Event>, i: nat)
    decreases events
  {
    events != [] &&
    (DropsUnlanded(s, events[0], i) || RunDropsUnlanded(max, Apply(max, s, events[0]), events[1..], i))
  }

  lemma StoredIsChained(max: nat, s: State, i: nat)
    requires CalmInv(max, s) && Unaccounted(s, i)
    ensures (i in ItemIds(s.stored) <==> i in s.landed) && (i in s.landed ==> i in IdsOf(Home(s)))
    ensures i in IdsOf(Home(s)) && i !in ItemIds(s.stored) <==> i in IdsOf(s.queue) && i !in s.landed
  {
    HomeAfter(max, s, Flush);
    var snaps := Snaps(s);
    assert snaps[0] == ItemIds(s.stored) && snaps[0] <= snaps[|snaps| - 1] + Done(s);
    assert s.phase.Idle? && s.queue == [] ==> Home(s) == s.queue || IdsOf(Home(s)) <= ItemIds(s.stored);
    hide Snaps, Home, FullInv, Replayed;
  }

  lemma CalmStepLosesExact(max: nat, s: State, e: Event, i: nat)
    requires max >= 1 && CalmInv(max, s) && Orderly(s, e) && Calm(max, s, e)
    ensures Missing(Apply(max, s, e), i) <==> Missing(s, i) || DropsUnlanded(s, e, i)
  {
    StepLosesExact(max, s, e, i);
    if Unaccounted(s, i) {
      StoredIsChained(max, s, i);
    }
    hide Apply, Home, FullInv, IdsOf, ItemIds, ChainInv, Unaccounted;
  }

  lemma {:induction false} CalmRunLosesExact(max: nat, s: State, events: seq<Event>, i: nat)
    requires max >= 1 && CalmInv(max, s) && RunIsOrderly(max, s, events) && RunIsCalm(max, s, events)
    ensures Missing(Run(max, s, events), i) <==> Missing(s, i) || RunDropsUnlanded(max, s, events, i)
    decreases events
  {
    hide Apply, CalmInv, Orderly, Calm, Missing, DropsUnlanded;
    if events != [] {
      CalmStepLosesExact(max, s, events[0], i);
      StepKeepsCalm(max, s, events[0]);
      CalmRunLosesExact(max, Apply(max, s, events[0]), events[1..], i);
    }
  }

  /** Of the others exactly those are missing that some crash found waiting before any write of theirs had landed. */
  lemma UnlandedExact(max: nat, events: seq<Event>, i: nat)
    requires max >= 1 && RunIsOrderly(max, Init, events) && RunIsCalm(max, Init, events)
    ensures Missing(Run(max, Init, events), i) <==> RunDropsUnlanded(max, Init, events, i)
  {
    CalmAtTheStart(max);
    CalmRunLosesExact(max, Init, events, i);
    assert !Missing(Init, i);
  }

  // ---------------------------------------------------------------------------------------------
  // How often an action is replayed
  // ---------------------------------------------------------------------------------------------

  /** How many times a replay was begun. */
  function Starts(log: seq<Call>): nat {
    if log == [] then 0 else Starts(log[..|log| - 1]) + (if log[|log| - 1].second then 0 else 1)
  }

  lemma StartsAppend(log: seq<Call>, call: Call)
    ensures Starts(log + [call]) == Starts(log) + (if call.second then 0 else 1)
  {
    assert (log + [call])[..|log|] == log;
  }

  /** The replays begun, and one more for each action replayed before that such a queue would replay again. */
  ghost predicate Fits(log: seq<Call>, crashes: nat, queued: set<nat>) {
    Starts(log) + |Replayed(log) * queued| <= |Replayed(log)| + crashes
  }

  function Current(s: State): set<nat> {
    if s.phase.Replaying? then {s.phase.action.id} else {}
  }

  /** From which of the snapshots on the action replayed last is no longer in it. */
  function Without(s: State): nat {
    if s.phase.Persisting? then s.phase.ahead else 0
  }

  /** One snapshot: it fits after a crash, and at once if it lacks the last action replayed. */
  ghost predicate SnapFits(
    log: seq<Call>, crashes: nat, home: set<nat>, current: set<nat>, lacks: bool, snap: set<nat>)
  {
    && Fits(log, crashes + 1, snap)
    && (lacks ==> Fits(log, crashes, snap - current))
    && Replayed(log) * home - current <= snap
  }

  ghost predicate Bound(
    log: seq<Call>, crashes: nat, home: set<nat>, current: set<nat>, from: nat, snaps: seq<set<nat>>)
  {
    && Fits(log, crashes, home - current)
    && forall k | 0 <= k < |snaps| :: SnapFits(log, crashes, home, current, k >= from, snaps[k])
  }

  ghost predicate BoundInv(s: State) {
    Bound(s.log, s.crashes, IdsOf(Home(s)), Current(s), Without(s), Snaps(s))
  }

  lemma FitsFewer(log: seq<Call>, crashes: nat, queued: set<nat>, fewer: set<nat>)
    requires Fits(log, crashes, queued) && Replayed(log) * fewer <= queued
    ensures Fits(log, crashes, fewer)
  {
    Subset(Replayed(log) * fewer, Replayed(log) * queued);
  }

  lemma FitsOneMore(log: seq<Call>, crashes: nat, queued: set<nat>, i: nat)
    requires Fits(log, crashes, queued - {i})
    ensures Fits(log, crashes + 1, queued)
  {
    hide Starts, Replayed;
    Subset(Replayed(log) * queued, Replayed(log) * (queued - {i}) + {i});
    assert |Replayed(log) * (queued - {i}) + {i}| <= |Replayed(log) * (queued - {i})| + 1;
  }

  /** A replay of an action that is either new or counted before. */
  lemma FitsStart(log: seq<Call>, crashes: nat, queued: set<nat>, action: Action)
    requires Fits(log, crashes, queued) && (action.id in Replayed(log) ==> action.id in queued)
    ensures var log' := log + [Call(action, false)];
            Fits(log', crashes, queued - {action.id}) && Fits(log', crashes + 1, queued)
  {
    var i, log' := action.id, log + [Call(action, false)];
    StartsAppend(log, Call(action, false));
    ReplayedAppend(log, Call(action, false));
    hide Starts, Replayed;
    assert Replayed(log') * (queued - {i}) == Replayed(log) * queued - {i};
    if i in Replayed(log) {
      assert Replayed(log') == Replayed(log) && i in Replayed(log) * queued;
    }
    FitsOneMore(log', crashes, queued, i);
  }

  lemma FitsSecond(log: seq<Call>, crashes: nat, queued: set<nat>, action: Action)
    requires Fits(log, crashes, queued) && action.id in Replayed(log)
    ensures Fits(log + [Call(action, true)], crashes, queued)
    ensures Replayed(log + [Call(action, true)]) == Replayed(log)
  {
    StartsAppend(log, Call(action, true));
    ReplayedAppend(log, Call(action, true));
    hide Starts, Replayed;
    assert Replayed(log) + {action.id} == Replayed(log);
  }

  lemma BoundStart(log: seq<Call>, crashes: nat, home: set<nat>, snaps: seq<set<nat>>, action: Action)
    requires Bound(log, crashes, home, {}, 0, snaps) && action.id in home
    ensures Bound(log + [Call(action, false)], crashes, home, {action.id}, 0, snaps)
  {
    ReplayedAppend(log, Call(action, false));
    assert home - {} == home;
    hide Fits, Replayed;
    FitsStart(log, crashes, home, action);
    forall k | 0 <= k < |snaps|
      ensures SnapFits(log + [Call(action, false)], crashes, home, {action.id}, true, snaps[k])
    {
      assert SnapFits(log, crashes, home, {}, true, snaps[k]) && snaps[k] - {} == snaps[k];
      FitsStart(log, crashes, snaps[k], action);
    }
  }

  lemma BoundSecond(log: seq<Call>, crashes: nat, home: set<nat>, snaps: seq<set<nat>>, action: Action)
    requires Bound(log, crashes, home, {action.id}, 0, snaps) && action.id in Replayed(log)
    ensures Bound(log + [Call(action, true)], crashes, home, {action.id}, 0, snaps)
  {
    var current := {action.id};
    hide Fits, Replayed;
    FitsSecond(log, crashes, home - current, action);
    forall k | 0 <= k < |snaps|
      ensures SnapFits(log + [Call(action, true)], crashes, home, current, true, snaps[k])
    {
      assert SnapFits(log, crashes, home, current, true, snaps[k]);
      FitsSecond(log, crashes + 1, snaps[k], action);
      FitsSecond(log, crashes, snaps[k] - current, action);
    }
  }

  /** A new queue is called to be written: it holds no action replayed before but such as the old one held. */
  lemma BoundMore(
    log: seq<Call>, crashes: nat, home: set<nat>, current: set<nat>, from: nat, snaps: seq<set<nat>>,
    queued: set<nat>, current': set<nat>, from': nat)
    requires Bound(log, crashes, home, current, from, snaps) && Replayed(log) * queued <= home && |current| <= 1
    requires if from' == |snaps| then current' == {} && current !! queued
             else current' == current && from' == from <= |snaps|
    ensures Bound(log, crashes, queued, current', from', snaps + [queued])
  {
    hide Fits;
    FitsFewer(log, crashes, home - current, queued - current');
    FitsGrows(log, crashes, queued, current');
    var after := snaps + [queued];
    forall k | 0 <= k < |after| ensures SnapFits(log, crashes, queued, current', k >= from', after[k]) {
      if k < |snaps| {
        assert SnapFits(log, crashes, home, current, k >= from, snaps[k]);
      }
    }
  }

  lemma BoundLess(
    log: seq<Call>, crashes: nat, home: set<nat>, current: set<nat>, from: nat, snaps: seq<set<nat>>)
    requires Bound(log, crashes, home, current, from, snaps) && snaps != []
    ensures Bound(log, crashes, home, current, Nearer(from), snaps[1..])
  {
    hide Fits;
    forall k | 0 <= k < |snaps| - 1
      ensures SnapFits(log, crashes, home, current, k >= Nearer(from), snaps[1..][k])
    {
      assert SnapFits(log, crashes, home, current, k + 1 >= from, snaps[k + 1]);
    }
  }

  lemma BoundCrash(
    log: seq<Call>, crashes: nat, home: set<nat>, current: set<nat>, from: nat, snaps: seq<set<nat>>)
    requires Bound(log, crashes, home, current, from, snaps) && snaps != []
    ensures Bound(log, crashes + 1, snaps[0], {}, 0, [snaps[0]])
  {
    hide Fits;
    var snap := snaps[0];
    assert SnapFits(log, crashes, home, current, 0 >= from, snap) && snap - {} == snap;
    FitsMoreCrashes(log, crashes + 1, snap);
  }

  lemma BoundOf(s: State)
    ensures BoundInv(s) <==> Bound(s.log, s.crashes, IdsOf(Home(s)), Current(s), Without(s), Snaps(s))
  {
    hide Bound;
  }

  /** A call of the replay handler changes nothing but the log and what is current. */
  lemma CallFacts(s: State, action: Action, second: bool)
    ensures var t := s.(log := s.log + [Call(action, second)], phase := Replaying(action, second));
            Home(t) == Home(s) && Snaps(t) == Snaps(s) && Current(t) == {action.id} && Without(t) == 0
  {
    var t := s.(log := s.log + [Call(action, second)], phase := Replaying(action, second));
    assert Latest(t) == Latest(s);
    hide Latest;
  }

  lemma IdleFacts(max: nat, s: State)
    requires max >= 1 && FullInv(max, s) && s.queue != [] && (s.phase.Idle? || s.phase == Persisting(0))
    ensures Home(s) == s.queue && s.queue[0].id in IdsOf(Home(s)) && Current(s) == {} && Without(s) == 0
    ensures NextReplay(s)
            == s.(log := s.log + [Call(s.queue[0], false)], phase := Replaying(s.queue[0], false))
  {
    HomeAfter(max, s, Flush);
    hide Inv, OrderInv, Home;
    assert s.queue[0] in s.queue;
  }

  lemma StartKeepsBound(max: nat, s: State)
    requires max >= 1 && FullInv(max, s) && BoundInv(s) && s.queue != [] && (s.phase.Idle? || s.phase == Persisting(0))
    ensures BoundInv(NextReplay(s))
  {
    hide *;
    var h := s.queue[0];
    IdleFacts(max, s);
    CallFacts(s, h, false);
    BoundOf(s);
    BoundOf(NextReplay(s));
    BoundStart(s.log, s.crashes, IdsOf(Home(s)), Snaps(s), h);
  }

  lemma ReplayingFacts(max: nat, s: State)
    requires FullInv(max, s) && s.phase.Replaying?
    ensures Current(s) == {s.phase.action.id} && Without(s) == 0 && s.phase.action.id in Replayed(s.log)
  {
    ReplayedIsFirst(max, s);
    hide FullInv;
  }

  lemma SecondKeepsBound(max: nat, s: State)
    requires max >= 1 && FullInv(max, s) && BoundInv(s) && s.phase.Replaying?
    ensures BoundInv(s.(log := s.log + [Call(s.phase.action, true)], phase := Replaying(s.phase.action, true)))
  {
    hide *;
    var h := s.phase.action;
    ReplayingFacts(max, s);
    CallFacts(s, h, true);
    BoundOf(s);
    BoundOf(s.(log := s.log + [Call(h, true)], phase := Replaying(h, true)));
    BoundSecond(s.log, s.crashes, IdsOf(Home(s)), Snaps(s), h);
  }

  /** The queue a change leaves holds no action replayed before but such as it held, and not the one being replayed. */
  lemma ReplayedShrinks(max: nat, s: State, e: Event)
    requires max >= 1 && FullInv(max, s) && Orderly(s, e) && Touches(s, e)
    ensures var t := Apply(max, s, e);
            && t.log == s.log && t.crashes == s.crashes && Home(t) == t.queue
            && Replayed(s.log) * IdsOf(t.queue) <= IdsOf(Home(s))
            && (EndsReplay(s, e) ==> s.phase.action.id !in IdsOf(t.queue) && t.phase == Persisting(|Snaps(s)|))
            && (!EndsReplay(s, e) ==> t.phase == s.phase && Without(s) <= |Snaps(s)|)
  {
    HomeAfter(max, s, e);
    IdsOfShift(s.queue);
    NewIsUnknown(max, s);
    if e.Enqueue? {
      EnqueuedIds(max, s, e.body);
    } else if EndsReplay(s, e) {
      ReplayedIsFirst(max, s);
    }
    hide Replayed;
  }

  lemma TouchKeepsBound(max: nat, s: State, e: Event)
    requires max >= 1 && FullInv(max, s) && BoundInv(s) && Orderly(s, e) && Touches(s, e)
    ensures BoundInv(Apply(max, s, e))
  {
    var t := Apply(max, s, e);
    ReplayedShrinks(max, s, e);
    SnapsAfter(max, s, e);
    hide Bound, Snaps, Home, FullInv, IdsOf, Replayed, Apply;
    BoundMore(s.log, s.crashes, IdsOf(Home(s)), Current(s), Without(s), Snaps(s),
              IdsOf(t.queue), Current(t), Without(t));
  }

  lemma FitsGrows(log: seq<Call>, crashes: nat, queued: set<nat>, current: set<nat>)
    requires Fits(log, crashes, queued - current) && |current| <= 1
    ensures Fits(log, crashes + 1, queued)
  {
    hide Starts, Replayed;
    Subset(Replayed(log) * queued, Replayed(log) * (queued - current) + current);
    assert |Replayed(log) * (queued - current) + current| <= |Replayed(log) * (queued - current)| + |current|;
  }

  lemma CrashFacts(s: State)
    ensures var t := Crashed(s);
            && Snaps(s) != [] && IdsOf(Home(t)) == Snaps(s)[0] && Snaps(t) == [Snaps(s)[0]]
            && Current(t) == {} && Without(t) == 0 && t.log == s.log && t.crashes == s.crashes + 1
  {
    assert IdsOf([]) == {};
    hide IdsOf;
  }

  lemma CrashKeepsBound(s: State)
    requires BoundInv(s)
    ensures BoundInv(Crashed(s))
  {
    hide *;
    CrashFacts(s);
    BoundOf(s);
    BoundOf(Crashed(s));
    BoundCrash(s.log, s.crashes, IdsOf(Home(s)), Current(s), Without(s), Snaps(s));
  }

  lemma LandFacts(s: State)
    requires s.writes != []
    ensures var t := Landed(s);
            && Snaps(s) != [] && Home(t) == Home(s) && Snaps(t) == Snaps(s)[1..]
            && Current(t) == Current(s) && Without(t) == Nearer(Without(s)) && t.log == s.log && t.crashes == s.crashes
  {
    assert Latest(Landed(s)) == Latest(s);
    hide IdsOf, Latest;
  }

  lemma LandKeepsBound(s: State)
    requires BoundInv(s) && s.writes != []
    ensures BoundInv(Landed(s))
  {
    hide *;
    LandFacts(s);
    BoundOf(s);
    BoundOf(Landed(s));
    BoundLess(s.log, s.crashes, IdsOf(Home(s)), Current(s), Without(s), Snaps(s));
  }

  lemma OtherFacts(max: nat, s: State, e: Event)
    requires !Touches(s, e) && Apply(max, s, e).log == s.log && !e.Crash? && (e.Land? ==> s.writes == [])
    ensures var t := Apply(max, s, e);
            Current(t) == Current(s) && Without(t) == Without(s) && t.crashes == s.crashes
  {
    hide IdsOf, Latest, Shift, Loaded;
  }

  lemma HomeStays(max: nat, s: State, e: Event)
    requires FullInv(max, s) && Orderly(s, e) && !Touches(s, e) && !e.Crash? && (e.Land? ==> s.writes == [])
    ensures Home(Apply(max, s, e)) == Home(s) && Snaps(Apply(max, s, e)) == Snaps(s)
  {
    HomeAfter(max, s, e);
    SnapsAfter(max, s, e);
    hide Apply, Home, Snaps, Inv, SyncInv, OrderInv, Due;
  }

  lemma OtherKeepsBound(max: nat, s: State, e: Event)
    requires max >= 1 && FullInv(max, s) && BoundInv(s) && Orderly(s, e) && !Touches(s, e)
    requires Apply(max, s, e).log == s.log && !e.Crash? && (e.Land? ==> s.writes == [])
    ensures BoundInv(Apply(max, s, e))
  {
    hide *;
    HomeStays(max, s, e);
    OtherFacts(max, s, e);
    BoundOf(s);
    BoundOf(Apply(max, s, e));
  }

  lemma FitsMoreCrashes(log: seq<Call>, crashes: nat, queued: set<nat>)
    requires Fits(log, crashes, queued)
    ensures Fits(log, crashes + 1, queued)
  {
  }

  lemma StepKeepsBound(max: nat, s: State, e: Event)
    requires max >= 1 && FullInv(max, s) && BoundInv(s) && Orderly(s, e)
    ensures BoundInv(Apply(max, s, e))
  {
    NewCall(max, s, e);
    hide BoundInv, FullInv;
    if Touches(s, e) {
      TouchKeepsBound(max, s, e);
    } else if e.Crash? {
      CrashKeepsBound(s);
    } else if e.Land? && s.writes != [] {
      LandKeepsBound(s);
    } else if Apply(max, s, e).log == s.log {
      OtherKeepsBound(max, s, e);
    } else if s.phase.Replaying? {
      SecondKeepsBound(max, s);
    } else {
      StartKeepsBound(max, s);
    }
  }

  lemma {:induction false} RunKeepsBound(max: nat, s: State, events: seq<Event>)
    requires max >= 1 && FullInv(max, s) && BoundInv(s) && RunIsOrderly(max, s, events)
    ensures BoundInv(Run(max, s, events))
    decreases events
  {
    hide Apply, FullInv, BoundInv, Orderly;
    if events != [] {
      StepKeepsBound(max, s, events[0]);
      StepKeepsFull(max, s, events[0]);
      RunKeepsBound(max, Apply(max, s, events[0]), events[1..]);
    }
  }

  /** The replays begun are at most one for each action replayed and one more for each crash. */
  lemma CrashesRepeatOneActionEach(max: nat, events: seq<Event>)
    requires max >= 1 && RunIsOrderly(max, Init, events)
    ensures var t := Run(max, Init, events); Starts(t.log) <= |Replayed(t.log)| + t.crashes
  {
    AtTheStart(max);
    assert Replayed(Init.log) == {};
    RunKeepsBound(max, Init, events);
  }
}
