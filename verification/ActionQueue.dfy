/**
The client's offline action queue: bounded first-in first-out, replayed in order with one retry, and persisted.

The creation time and counter that make up an action's id are one serial number here. Whatever awaits something is
suspended, and other calls run meanwhile: a flush waits for replays and for the write after each, a restore for its
read. Writes land in the order of their calls, some time after them, and a read finds what the writes before it have
left, as transactions of IndexedDB do; a crash drops what has not landed.
*/
module ActionQueue {
  import opened Options

  datatype Action = Action(id: nat, body: string)

  /** What storage holds under the queue's key. */
  datatype Item = Absent | Corrupt | NotAList | Saved(actions: seq<Action>)

  /** Where a flush stands; `ahead` writes have to land before the one it waits for is done. */
  datatype Phase = Idle | Replaying(action: Action, second: bool) | Persisting(ahead: nat)

  /** A restore that has called getItem: what it will find, and how many writes land before that. */
  datatype Reading = Reading(item: Item, ahead: nat)

  /** A call of the replay handler. */
  datatype Call = Call(action: Action, second: bool)

  datatype State = State(
    queue: seq<Action>,
    stored: Item,
    writes: seq<seq<Action>>, // the writes in flight, oldest first
    reading: Option<Reading>,
    phase: Phase,
    history: seq<Action>, // every action ever enqueued
    log: seq<Call>, // every call of the replay handler
    since: nat, // how many of them the last crash found
    errors: seq<Action>, // every call of the error handler
    discarded: set<nat>, // what eviction and clear removed
    landed: set<nat>, // the actions of every write that has landed
    crashes: nat)

  datatype Event =
    | Enqueue(body: string)
    | Clear
    | Flush
    | Settled(ok: bool) // the pending call of the replay handler ends
    | Persisted // a flush learns that its write has landed
    | Land // the oldest write in flight lands
    | Read // a restore calls getItem
    | Restored // and replaces the queue
    | Crash

  const Init := State([], Absent, [], None, Idle, [], [], 0, [], {}, {}, 0)

  function Shift(q: seq<Action>): seq<Action> {
    if q == [] then [] else q[1..]
  }

  function Loaded(stored: Item, current: seq<Action>): seq<Action> {
    match stored
    case Absent => current
    case Corrupt => []
    case NotAList => current
    case Saved(actions) => actions
  }

  function IdsOf(q: seq<Action>): set<nat> {
    set a <- q :: a.id
  }

  function ItemIds(item: Item): set<nat> {
    if item.Saved? then IdsOf(item.actions) else {}
  }

  /** What a read that is called now will find. */
  function Latest(s: State): Item {
    if s.writes == [] then s.stored else Saved(s.writes[|s.writes| - 1])
  }

  /** The queue changed, and its write called. */
  function Written(s: State, queue: seq<Action>): State {
    s.(queue := queue, writes := s.writes + [queue])
  }

  function Enqueued(max: nat, s: State, body: string): State {
    var action := Action(|s.history|, body);
    var full := |s.queue| >= max;
    var queue := (if full then Shift(s.queue) else s.queue) + [action];
    Written(s, queue).(history := s.history + [action],
    discarded := if full && s.queue != [] then s.discarded + {s.queue[0].id} else s.discarded)
  }

  /** The loop head of flush: replay the first action, or stop when there is none. */
  function NextReplay(s: State): State {
    if s.queue == [] then s.(phase := Idle)
    else s.(phase := Replaying(s.queue[0], false), log := s.log + [Call(s.queue[0], false)])
  }

  function Removed(s: State): State {
    Written(s, Shift(s.queue)).(phase := Persisting(|s.writes| + 1))
  }

  function Nearer(n: nat): nat {
    if n == 0 then 0 else n - 1
  }

  /** The oldest write takes effect. */
  function Landed(s: State): State {
    if s.writes == [] then s
    else
      s.(stored := Saved(s.writes[0]), writes := s.writes[1..], landed := s.landed + IdsOf(s.writes[0]),
      phase := if s.phase.Persisting? then Persisting(Nearer(s.phase.ahead)) else s.phase,
      reading := if s.reading.Some? then Some(Reading(s.reading.value.item, Nearer(s.reading.value.ahead))) else None)
  }

  /** The process dies: a new queue over the same storage. */
  function Crashed(s: State): State {
    s.(queue := [], writes := [], reading := None, phase := Idle, since := |s.log|, crashes := s.crashes + 1)
  }

  /** A replay ends for good: it succeeded, or its retry failed. */
  predicate EndsReplay(s: State, e: Event) {
    e.Settled? && s.phase.Replaying? && (e.ok || s.phase.second)
  }

  function Apply(max: nat, s: State, e: Event): State {
    match e
    case Enqueue(body) => Enqueued(max, s, body)
    case Flush => if s.phase.Idle? then NextReplay(s) else s
    case Persisted => if s.phase == Persisting(0) then NextReplay(s) else s
    case Settled(ok) =>
      if !s.phase.Replaying? then s
      else if !ok && !s.phase.second then
        s.(phase := Replaying(s.phase.action, true), log := s.log + [Call(s.phase.action, true)])
      else Removed(if ok then s else s.(errors := s.errors + [s.phase.action]))
    case Clear => Written(s, []).(discarded := s.discarded + IdsOf(s.queue))
    case Land => Landed(s)
    case Read => if s.reading.Some? then s else s.(reading := Some(Reading(Latest(s), |s.writes|)))
    case Restored =>
      if s.reading.Some? && s.reading.value.ahead == 0
      then s.(queue := Loaded(s.reading.value.item, s.queue), reading := None) else s
    case Crash => Crashed(s)
  }

  function Run(max: nat, s: State, events: seq<Event>): State
    decreases events
  {
    if events == [] then s else Run(max, Apply(max, s, events[0]), events[1..])
  }

  // ---------------------------------------------------------------------------------------------
  // What every run keeps
  // ---------------------------------------------------------------------------------------------

  /** Actions of the history in its order, no more than fit. */
  ghost predicate IsList(max: nat, q: seq<Action>, history: seq<Action>) {
    && |q| <= max
    && (forall i, j | 0 <= i < j < |q| :: q[i].id < q[j].id)
    && (forall a <- q :: a.id < |history| && history[a.id] == a)
  }

  ghost predicate IsListItem(max: nat, item: Item, history: seq<Action>) {
    item.Saved? ==> IsList(max, item.actions, history)
  }

  ghost predicate Numbered(history: seq<Action>) {
    forall i | 0 <= i < |history| :: history[i].id == i
  }

  /** The queue, and whatever may become the queue again. */
  ghost predicate ListsInv(max: nat, s: State) {
    && Numbered(s.history) && IsList(max, s.queue, s.history) && IsListItem(max, s.stored, s.history)
    && (forall w <- s.writes :: IsList(max, w, s.history))
    && (s.reading.Some? ==> IsListItem(max, s.reading.value.item, s.history))
    && (forall i <- s.discarded :: i < |s.history|)
  }

  /** Only enqueued actions are replayed, and a second call follows the first of the same action. */
  ghost predicate CallsInv(log: seq<Call>, history: seq<Action>) {
    && (forall c <- log :: c.action.id < |history| && history[c.action.id] == c.action)
    && (forall i | 0 <= i < |log| && log[i].second :: i > 0 && log[i - 1] == Call(log[i].action, false))
  }

  ghost predicate Pending(s: State) {
    && s.since <= |s.log|
    && (s.phase.Replaying? ==> s.since < |s.log| && s.log[|s.log| - 1] == Call(s.phase.action, s.phase.second))
  }

  ghost predicate Inv(max: nat, s: State) {
    ListsInv(max, s) && CallsInv(s.log, s.history) && Pending(s)
  }

  lemma ListsGrow(max: nat, q: seq<Action>, history: seq<Action>, action: Action)
    requires IsList(max, q, history)
    ensures IsList(max, q, history + [action]) && IsList(max, Shift(q), history) && IsList(max, [], history)
  {
  }

  lemma EnqueuedIsList(max: nat, s: State, body: string)
    requires max >= 1 && Numbered(s.history) && IsList(max, s.queue, s.history)
    ensures var t := Enqueued(max, s, body); Numbered(t.history) && IsList(max, t.queue, t.history)
  {
  }

  lemma EnqueuedKeepsLists(max: nat, s: State, body: string)
    requires max >= 1 && ListsInv(max, s)
    ensures ListsInv(max, Enqueued(max, s, body))
  {
    var action := Action(|s.history|, body);
    EnqueuedIsList(max, s, body);
    assert s.queue != [] ==> s.queue[0] in s.queue;
    hide IsList, Numbered;
    if s.stored.Saved? {
      ListsGrow(max, s.stored.actions, s.history, action);
    }
    if s.reading.Some? && s.reading.value.item.Saved? {
      ListsGrow(max, s.reading.value.item.actions, s.history, action);
    }
    forall w <- s.writes ensures IsList(max, w, s.history + [action]) {
      ListsGrow(max, w, s.history, action);
    }
  }

  lemma WrittenKeepsLists(max: nat, s: State, queue: seq<Action>)
    requires ListsInv(max, s) && IsList(max, queue, s.history)
    ensures ListsInv(max, Written(s, queue))
  {
    hide IsList, Numbered;
  }

  lemma RemovedKeepsLists(max: nat, s: State)
    requires ListsInv(max, s)
    ensures ListsInv(max, Removed(s))
  {
    ListsGrow(max, s.queue, s.history, Action(0, ""));
    WrittenKeepsLists(max, s, Shift(s.queue));
    hide IsList, Numbered, Shift;
  }

  lemma ClearKeepsLists(max: nat, s: State)
    requires ListsInv(max, s)
    ensures ListsInv(max, Apply(max, s, Clear))
  {
    ListsGrow(max, s.queue, s.history, Action(0, ""));
    WrittenKeepsLists(max, s, []);
    assert forall a <- s.queue :: a.id < |s.history|;
    hide IsList, Numbered;
  }

  lemma LandedKeepsLists(max: nat, s: State)
    requires ListsInv(max, s)
    ensures ListsInv(max, Landed(s))
  {
    hide IsList, Numbered;
  }

  lemma RestoredKeepsLists(max: nat, s: State, e: Event)
    requires ListsInv(max, s) && (e.Read? || e.Restored? || e.Crash?)
    ensures ListsInv(max, Apply(max, s, e))
  {
    ListsGrow(max, s.queue, s.history, Action(0, ""));
    hide IsList, Numbered;
  }

  lemma StepKeepsLists(max: nat, s: State, e: Event)
    requires max >= 1 && ListsInv(max, s)
    ensures ListsInv(max, Apply(max, s, e)) && s.history <= Apply(max, s, e).history
  {
    match e
    case Enqueue(body) => EnqueuedKeepsLists(max, s, body);
    case Clear => ClearKeepsLists(max, s);
    case Land => LandedKeepsLists(max, s);
    case Settled(ok) =>
      RemovedKeepsLists(max, s);
      RemovedKeepsLists(max, if ok || !s.phase.Replaying? then s else s.(errors := s.errors + [s.phase.action]));
      hide IsList, Numbered, Shift;
    case Flush => hide IsList, Numbered;
    case Persisted => hide IsList, Numbered;
    case _ => RestoredKeepsLists(max, s, e);
  }

  /** What a step adds to the log is a call for the head of the queue or for the action being replayed. */
  lemma NewCall(max: nat, s: State, e: Event)
    ensures
      var t := Apply(max, s, e);
      || t.log == s.log
      || (s.queue != [] && t.log == s.log + [Call(s.queue[0], false)] && t.phase == Replaying(s.queue[0], false)
          && (s.phase.Idle? || s.phase == Persisting(0)) && t == NextReplay(s))
      || (s.phase.Replaying? && !s.phase.second && t.log == s.log + [Call(s.phase.action, true)]
          && t.phase == Replaying(s.phase.action, true) && t == s.(log := t.log, phase := t.phase))
  {
    hide Latest, Loaded, IdsOf;
  }

  lemma StepKeepsCalls(max: nat, s: State, e: Event)
    requires max >= 1 && Inv(max, s)
    ensures CallsInv(Apply(max, s, e).log, Apply(max, s, e).history) && Pending(Apply(max, s, e))
  {
    StepKeepsLists(max, s, e);
    NewCall(max, s, e);
    var t := Apply(max, s, e);
    if t.log == s.log {
      hide IsList, ListsInv;
      SameLogPending(max, s, e);
    } else if s.phase.Replaying? {
      assert s.log[|s.log| - 1] in s.log;
      hide IsList, ListsInv, Apply;
    } else {
      assert s.queue[0] in s.queue;
      hide Apply;
    }
  }

  lemma SameLogPending(max: nat, s: State, e: Event)
    requires Pending(s) && Apply(max, s, e).log == s.log
    ensures Pending(Apply(max, s, e))
  {
  }

  lemma StepKeepsInv(max: nat, s: State, e: Event)
    requires max >= 1 && Inv(max, s)
    ensures Inv(max, Apply(max, s, e))
  {
    StepKeepsLists(max, s, e);
    StepKeepsCalls(max, s, e);
  }

  /**
  Over every run, crashes and restores at any moment included: queue, storage and writes in flight hold actions of the
  history in its order and within capacity; only such actions are replayed, and a second call directly follows the
  first.
  */
  lemma {:induction false} RunKeepsInv(max: nat, s: State, events: seq<Event>)
    requires max >= 1 && Inv(max, s)
    ensures Inv(max, Run(max, s, events))
    decreases events
  {
    hide Apply, Inv;
    if events != [] {
      StepKeepsInv(max, s, events[0]);
      RunKeepsInv(max, Apply(max, s, events[0]), events[1..]);
    }
  }

  ghost predicate ErrorsInv(s: State) {
    forall a <- s.errors :: Call(a, true) in s.log
  }

  lemma StepKeepsErrors(max: nat, s: State, e: Event)
    requires Pending(s) && ErrorsInv(s)
    ensures ErrorsInv(Apply(max, s, e))
  {
    NewCall(max, s, e);
    var t := Apply(max, s, e);
    forall a <- t.errors ensures Call(a, true) in t.log {
      if a in s.errors {
        assert Call(a, true) in s.log;
      } else {
        assert s.log[|s.log| - 1] == Call(a, true);
      }
    }
  }

  /** Over every run the error handler hears of an action only after its second call. */
  lemma {:induction false} ErrorsFollowSecondCalls(max: nat, s: State, events: seq<Event>)
    requires max >= 1 && Inv(max, s) && ErrorsInv(s)
    ensures ErrorsInv(Run(max, s, events))
    decreases events
  {
    if events != [] {
      StepKeepsInv(max, s, events[0]);
      StepKeepsErrors(max, s, events[0]);
      hide Apply, Inv, ErrorsInv;
      ErrorsFollowSecondCalls(max, Apply(max, s, events[0]), events[1..]);
    }
  }

  /** The actions whose second call failed, in order, read off the events. */
  function SecondFailures(max: nat, s: State, events: seq<Event>): seq<Action>
    decreases events
  {
    if events == [] then []
    else
      (if events[0] == Settled(false) && s.phase.Replaying? && s.phase.second then [s.phase.action] else [])
      + SecondFailures(max, Apply(max, s, events[0]), events[1..])
  }

  lemma StepErrors(max: nat, s: State, e: Event)
    ensures Apply(max, s, e).errors
            == s.errors + if e == Settled(false) && s.phase.Replaying? && s.phase.second then [s.phase.action] else []
  {
    hide Latest, Loaded, IdsOf, Shift;
  }

  /** Over every run the error handler is called once for each second call that fails, and for nothing else. */
  lemma {:induction false} ErrorsExact(max: nat, s: State, events: seq<Event>)
    ensures Run(max, s, events).errors == s.errors + SecondFailures(max, s, events)
    decreases events
  {
    if events != [] {
      StepErrors(max, s, events[0]);
      ErrorsExact(max, Apply(max, s, events[0]), events[1..]);
      hide Apply;
    }
  }

  // ---------------------------------------------------------------------------------------------
  // A flush that nothing disturbs
  // ---------------------------------------------------------------------------------------------

  /** What becomes of one action: its first call succeeds, its second does, or neither. */
  datatype Fate = AtOnce | AtRetry | Never

  /** The ends of the calls of one action, the landing of the write after it, and its answer. */
  function Replays(fate: Fate): seq<Event> {
    match fate
    case AtOnce => [Settled(true), Land, Persisted]
    case AtRetry => [Settled(false), Settled(true), Land, Persisted]
    case Never => [Settled(false), Settled(false), Land, Persisted]
  }

  function Script(fates: seq<Fate>): seq<Event> {
    if fates == [] then [] else Replays(fates[0]) + Script(fates[1..])
  }

  /** The calls of one action. */
  function FirstCalls(action: Action, fate: Fate): seq<Call> {
    [Call(action, false)] + if fate.AtOnce? then [] else [Call(action, true)]
  }

  /** The calls these fates make of the replay handler. */
  function CallsFor(queue: seq<Action>, fates: seq<Fate>): seq<Call>
    requires |queue| == |fates|
  {
    if queue == [] then [] else FirstCalls(queue[0], fates[0]) + CallsFor(queue[1..], fates[1..])
  }

  function FirstFailure(action: Action, fate: Fate): seq<Action> {
    if fate.Never? then [action] else []
  }

  /** The actions that fail both times. */
  function FailuresOf(queue: seq<Action>, fates: seq<Fate>): seq<Action>
    requires |queue| == |fates|
  {
    if queue == [] then [] else FirstFailure(queue[0], fates[0]) + FailuresOf(queue[1..], fates[1..])
  }

  lemma RunFour(max: nat, s: State, first: Event, second: Event, third: Event, fourth: Event)
    ensures Run(max, s, [first, second, third, fourth])
            == Apply(max, Apply(max, Apply(max, Apply(max, s, first), second), third), fourth)
  {
    hide Apply;
    assert [first, second, third, fourth][1..] == [second, third, fourth];
    RunThree(max, Apply(max, s, first), second, third, fourth);
  }

  /** The removal of a replayed action, the landing of its write, and the next replay. */
  lemma RemovedThenNext(max: nat, s: State, ok: bool)
    requires s.phase.Replaying? && s.writes == [] && s.queue != [] && (ok || s.phase.second)
    ensures
      var t := Apply(max, Apply(max, Apply(max, s, Settled(ok)), Land), Persisted);
      && t.queue == s.queue[1..] && t.stored == Saved(t.queue) && t.writes == [] && t.history == s.history
      && t.errors == s.errors + (if ok then [] else [s.phase.action])
      && (if t.queue == [] then t.phase.Idle? && t.log == s.log
          else t.phase == Replaying(t.queue[0], false) && t.log == s.log + [Call(t.queue[0], false)])
  {
    var s1 := Apply(max, s, Settled(ok));
    assert s1.writes == [s.queue[1..]] && s1.phase == Persisting(1);
    var s2 := Apply(max, s1, Land);
    assert s2.phase == Persisting(0) && s2.queue == s.queue[1..];
  }

  /** One action from its first call to the next action's. */
  lemma OneFate(max: nat, s: State, fate: Fate)
    requires s.queue != [] && s.phase == Replaying(s.queue[0], false) && s.writes == []
    ensures
      var t := Run(max, s, Replays(fate));
      && t.queue == s.queue[1..] && t.stored == Saved(t.queue) && t.writes == [] && t.history == s.history
      && t.errors == s.errors + FirstFailure(s.queue[0], fate)
      && var log := s.log + if fate.AtOnce? then [] else [Call(s.queue[0], true)];
      if t.queue == [] then t.phase.Idle? && t.log == log
      else t.phase == Replaying(t.queue[0], false) && t.log == log + [Call(t.queue[0], false)]
  {
    var s1 := Apply(max, s, Settled(false));
    assert s1 == s.(phase := Replaying(s.queue[0], true), log := s.log + [Call(s.queue[0], true)]);
    hide Apply, Run;
    match fate
    case AtOnce =>
      RunThree(max, s, Settled(true), Land, Persisted);
      RemovedThenNext(max, s, true);
      assert s.log + [] == s.log;
    case AtRetry =>
      RunFour(max, s, Settled(false), Settled(true), Land, Persisted);
      RemovedThenNext(max, s1, true);
    case Never =>
      RunFour(max, s, Settled(false), Settled(false), Land, Persisted);
      RemovedThenNext(max, s1, false);
  }

  lemma Regroup<T>(a: seq<T>, b: seq<T>, c: seq<T>)
    ensures a + (b + c) == a + b + c
  {
  }

  lemma CallsMore(queue: seq<Action>, fates: seq<Fate>, log: seq<Call>, errors: seq<Action>)
    requires |queue| == |fates| && queue != []
    ensures log + CallsFor(queue, fates) == log + FirstCalls(queue[0], fates[0]) + CallsFor(queue[1..], fates[1..])
    ensures errors + FailuresOf(queue, fates)
            == errors + FirstFailure(queue[0], fates[0]) + FailuresOf(queue[1..], fates[1..])
  {
    hide FirstCalls, FirstFailure;
    Regroup(log, FirstCalls(queue[0], fates[0]), CallsFor(queue[1..], fates[1..]));
    Regroup(errors, FirstFailure(queue[0], fates[0]), FailuresOf(queue[1..], fates[1..]));
  }

  /** The log of an action's replay, whatever came before. */
  lemma LogOfFate(before: seq<Call>, action: Action, fate: Fate)
    ensures before + [Call(action, false)] + (if fate.AtOnce? then [] else [Call(action, true)])
            == before + FirstCalls(action, fate)
  {
  }

  lemma {:induction false} FlushGoesOn(max: nat, s: State, fates: seq<Fate>, before: seq<Call>)
    requires s.queue != [] && s.phase == Replaying(s.queue[0], false) && s.writes == [] && |fates| == |s.queue|
    requires s.log == before + [Call(s.queue[0], false)]
    ensures
      var t := Run(max, s, Script(fates));
      && t.queue == [] && t.phase.Idle? && t.stored == Saved([]) && t.writes == [] && t.history == s.history
      && t.log == before + CallsFor(s.queue, fates) && t.errors == s.errors + FailuresOf(s.queue, fates)
    decreases fates
  {
    var t := Run(max, s, Replays(fates[0]));
    OneFate(max, s, fates[0]);
    LogOfFate(before, s.queue[0], fates[0]);
    CallsMore(s.queue, fates, before, s.errors);
    NoCallsLeft();
    RunAppend(max, s, Replays(fates[0]), Script(fates[1..]));
    ScriptSplit(fates);
    hide *;
    if t.queue != [] {
      FlushGoesOn(max, t, fates[1..], before + FirstCalls(s.queue[0], fates[0]));
    } else {
      NothingMore(max, t, fates[1..]);
    }
  }

  lemma NoCallsLeft()
    ensures CallsFor([], []) == [] && FailuresOf([], []) == []
    ensures forall log: seq<Call> :: log + [] == log
    ensures forall errors: seq<Action> :: errors + [] == errors
  {
  }

  lemma ScriptSplit(fates: seq<Fate>)
    requires fates != []
    ensures Script(fates) == Replays(fates[0]) + Script(fates[1..])
  {
  }

  lemma NothingMore(max: nat, t: State, fates: seq<Fate>)
    requires fates == []
    ensures Run(max, t, Script(fates)) == t
  {
  }

  /**
  A flush of an idle queue whose writes have landed, disturbed by nothing: every action is replayed, in order, once or,
  if its first call fails, twice; the error handler hears of exactly those that fail twice; and the queue ends empty, in
  memory as in storage.
  */
  lemma FlushReplaysEverything(max: nat, s: State, fates: seq<Fate>)
    requires s.phase.Idle? && s.queue != [] && s.writes == [] && |fates| == |s.queue|
    ensures
      var t := Run(max, s, [Event.Flush] + Script(fates));
      && t.queue == [] && t.phase.Idle? && t.stored == Saved([]) && t.writes == [] && t.history == s.history
      && t.log == s.log + CallsFor(s.queue, fates) && t.errors == s.errors + FailuresOf(s.queue, fates)
  {
    var s1 := Apply(max, s, Event.Flush);
    assert s1 == s.(phase := Replaying(s.queue[0], false), log := s.log + [Call(s.queue[0], false)]);
    hide Apply;
    assert ([Event.Flush] + Script(fates))[1..] == Script(fates);
    FlushGoesOn(max, s1, fates, s.log);
  }

  // ---------------------------------------------------------------------------------------------
  // Gone for good
  // ---------------------------------------------------------------------------------------------

  function Replayed(log: seq<Call>): set<nat> {
    set c <- log :: c.action.id
  }

  /** Enqueued, never replayed, and nowhere: not queued, not stored, not in a write or a read under way. */
  ghost predicate Gone(s: State, i: nat) {
    && i < |s.history| && i !in Replayed(s.log)
    && i !in IdsOf(s.queue) && i !in ItemIds(s.stored)
    && (forall w <- s.writes :: i !in IdsOf(w))
    && (s.reading.Some? ==> i !in ItemIds(s.reading.value.item))
  }

  lemma IdsOfShift(q: seq<Action>)
    ensures IdsOf(Shift(q)) <= IdsOf(q)
    ensures q != [] ==> q[0].id in IdsOf(q) && IdsOf(q) == IdsOf(Shift(q)) + {q[0].id}
  {
    if q != [] {
      assert q == [q[0]] + Shift(q);
    }
  }

  lemma IdsOfAppend(q: seq<Action>, action: Action)
    ensures IdsOf(q + [action]) == IdsOf(q) + {action.id}
  {
    assert forall a :: a in q + [action] <==> a in q || a == action;
  }

  lemma ReplayedAppend(log: seq<Call>, call: Call)
    ensures Replayed(log + [call]) == Replayed(log) + {call.action.id}
  {
    assert forall c :: c in log + [call] <==> c in log || c == call;
  }

  lemma EnqueuedIds(max: nat, s: State, body: string)
    ensures IdsOf(Enqueued(max, s, body).queue)
            == (if |s.queue| >= max then IdsOf(Shift(s.queue)) else IdsOf(s.queue)) + {|s.history|}
  {
    IdsOfAppend(if |s.queue| >= max then Shift(s.queue) else s.queue, Action(|s.history|, body));
  }

  lemma StepReplays(max: nat, s: State, e: Event)
    requires Pending(s)
    ensures var before, after := Replayed(s.log), Replayed(Apply(max, s, e).log);
            after == before || (s.queue != [] && after == before + {s.queue[0].id})
  {
    NewCall(max, s, e);
    if s.queue != [] {
      ReplayedAppend(s.log, Call(s.queue[0], false));
    }
    if s.phase.Replaying? {
      ReplayedAppend(s.log, Call(s.phase.action, true));
      assert s.log[|s.log| - 1] in s.log;
      assert s.phase.action.id in Replayed(s.log);
    }
    hide Apply, Replayed;
  }

  lemma GoneStays(max: nat, s: State, e: Event, i: nat)
    requires Pending(s) && Gone(s, i)
    ensures Gone(Apply(max, s, e), i)
  {
    StepReplays(max, s, e);
    IdsOfShift(s.queue);
    if e.Enqueue? {
      EnqueuedIds(max, s, e.body);
    }
    assert IdsOf([]) == {};
    hide Replayed, IdsOf, Shift, Pending;
  }

  lemma {:induction false} GoneForGood(max: nat, s: State, events: seq<Event>, i: nat)
    requires max >= 1 && Inv(max, s) && Gone(s, i)
    ensures Gone(Run(max, s, events), i)
    decreases events
  {
    if events != [] {
      GoneStays(max, s, events[0], i);
      StepKeepsInv(max, s, events[0]);
      hide Apply, Inv, Gone;
      GoneForGood(max, Apply(max, s, events[0]), events[1..], i);
    }
  }

  lemma {:induction false} RunAppend(max: nat, s: State, a: seq<Event>, b: seq<Event>)
    ensures Run(max, s, a + b) == Run(max, Run(max, s, a), b)
    decreases a
  {
    if a == [] {
      assert a + b == b;
    } else {
      hide Apply;
      RunAppend(max, Apply(max, s, a[0]), a[1..], b);
      assert (a + b)[1..] == a[1..] + b;
    }
  }

  lemma RunOne(max: nat, s: State, e: Event)
    ensures Run(max, s, [e]) == Apply(max, s, e)
  {
    hide Apply;
    assert [e][1..] == [];
  }

  lemma RunTwo(max: nat, s: State, first: Event, second: Event)
    ensures Run(max, s, [first, second]) == Apply(max, Apply(max, s, first), second)
  {
    hide Apply;
    assert [first, second][1..] == [second];
    RunOne(max, Apply(max, s, first), second);
  }

  lemma RunThree(max: nat, s: State, first: Event, second: Event, third: Event)
    ensures Run(max, s, [first, second, third]) == Apply(max, Apply(max, Apply(max, s, first), second), third)
  {
    hide Apply;
    assert [first, second, third][1..] == [second, third];
    RunTwo(max, Apply(max, s, first), second, third);
  }

  lemma NewIsUnknown(max: nat, s: State)
    requires Inv(max, s)
    ensures |s.history| !in Replayed(s.log) && |s.history| !in IdsOf(s.queue) && |s.history| !in ItemIds(s.stored)
    ensures |s.history| !in s.discarded
  {
  }

  /** A crash before the write of a new action has landed: no continuation replays it. */
  lemma UnlandedIsLost(max: nat, s: State, body: string, more: seq<Event>)
    requires max >= 1 && Inv(max, s)
    ensures Gone(Run(max, s, [Enqueue(body), Crash] + more), |s.history|)
    ensures |s.history| !in Run(max, s, [Enqueue(body), Crash]).discarded
  {
    var s1 := Apply(max, s, Enqueue(body));
    var s2 := Apply(max, s1, Crash);
    NewIsUnknown(max, s);
    StepKeepsInv(max, s, Enqueue(body));
    StepKeepsInv(max, s1, Crash);
    assert s2.log == s.log && s2.stored == s.stored && s2.queue == [] && |s.history| < |s2.history|;
    EvictsOther(max, s, body);
    assert s2.discarded == s1.discarded;
    hide Inv, Replayed, ItemIds, Apply, Run;
    assert Gone(s2, |s.history|);
    RunTwo(max, s, Enqueue(body), Crash);
    RunAppend(max, s, [Enqueue(body), Crash], more);
    GoneForGood(max, s2, more, |s.history|);
  }

  lemma EvictsOther(max: nat, s: State, body: string)
    requires Inv(max, s)
    ensures |s.history| !in Enqueued(max, s, body).discarded
  {
    assert s.queue != [] ==> s.queue[0] in s.queue;
  }

  /** A restart, an action, and the landing of its write. */
  lemma Overwritten(max: nat, s: State, body: string)
    requires max >= 1
    ensures
      var t := Apply(max, Apply(max, Apply(max, s, Crash), Enqueue(body)), Land);
      && t.queue == [Action(|s.history|, body)] && t.stored == Saved(t.queue) && t.writes == [] && t.reading.None?
      && t.log == s.log && |t.history| == |s.history| + 1
  {
    var s2 := Apply(max, Apply(max, s, Crash), Enqueue(body));
    assert s2.writes == [s2.queue] && s2.queue == [Action(|s.history|, body)];
  }

  /** An action that reaches the queue after a restart and before its restore: what was stored is overwritten. */
  lemma EarlyEnqueueLoses(max: nat, s: State, body: string, more: seq<Event>, i: nat)
    requires max >= 1 && Inv(max, s) && i in ItemIds(s.stored) && i !in Replayed(s.log)
    ensures Gone(Run(max, s, [Crash, Enqueue(body), Land] + more), i)
  {
    var s1 := Apply(max, s, Crash);
    var s2 := Apply(max, s1, Enqueue(body));
    var s3 := Apply(max, s2, Land);
    Overwritten(max, s, body);
    StoredIsOld(max, s, i);
    hide Inv, Replayed, Apply, Run;
    assert Gone(s3, i);
    StepKeepsInv(max, s, Crash);
    StepKeepsInv(max, s1, Enqueue(body));
    StepKeepsInv(max, s2, Land);
    hide Gone;
    RunThree(max, s, Crash, Enqueue(body), Land);
    RunAppend(max, s, [Crash, Enqueue(body), Land], more);
    GoneForGood(max, s3, more, i);
  }

  lemma StoredIsOld(max: nat, s: State, i: nat)
    requires Inv(max, s) && i in ItemIds(s.stored)
    ensures i < |s.history|
  {
  }

  ghost predicate Between(e: Event) {
    !e.Read? && !e.Restored? && !e.Crash?
  }

  lemma {:induction false} ReadStays(max: nat, s: State, events: seq<Event>)
    requires s.reading.Some? && forall e <- events :: Between(e)
    ensures var t := Run(max, s, events); t.reading.Some? && t.reading.value.item == s.reading.value.item
    decreases events
  {
    if events != [] {
      assert Between(events[0]);
      ReadStays(max, Apply(max, s, events[0]), events[1..]);
    }
  }

  /**
  A restore over a queue whose last write holds it puts back the queue of the moment it was called: whatever happened
  since is undone, an action enqueued as much as the removal of one replayed.
  */
  lemma RestoreUndoes(max: nat, s: State, events: seq<Event>)
    requires Latest(s) == Saved(s.queue) && s.reading.None? && forall e <- events :: Between(e)
    ensures var t := Run(max, Apply(max, s, Read), events);
            t.reading.Some? && (t.reading.value.ahead == 0 ==> Apply(max, t, Restored).queue == s.queue)
  {
    ReadStays(max, Apply(max, s, Read), events);
    hide Run, Latest;
  }

  /** A restore that nothing disturbs, once the writes before it have landed: the queue is what the last one wrote. */
  lemma QuietRestore(max: nat, s: State)
    requires s.reading.None?
    ensures
      var t := Run(max, s, [Read] + Lands(|s.writes|) + [Restored]);
      && t.reading.None? && t.writes == [] && t.stored == Latest(s) && t.log == s.log && t.history == s.history
      && match Latest(s)
         case Saved(actions) => t.queue == actions
         case Corrupt => t.queue == []
         case _ => t.queue == s.queue
  {
    var s1 := Apply(max, s, Read);
    ReadReaches(max, s1);
    RunAppend(max, s, [Read] + Lands(|s.writes|), [Restored]);
    RunAppend(max, s, [Read], Lands(|s.writes|));
    RunOne(max, s, Read);
    RunOne(max, Run(max, s1, Lands(|s.writes|)), Restored);
    hide Run, Lands;
  }

  /** As many landings as are ahead of a read make it ready. */
  lemma {:induction false} ReadReaches(max: nat, s: State)
    requires s.reading.Some? && s.reading.value.ahead == |s.writes|
    ensures
      var t := Run(max, s, Lands(|s.writes|));
      && t.reading == Some(Reading(s.reading.value.item, 0)) && t.writes == [] && t.stored == Latest(s)
      && t.queue == s.queue && t.log == s.log && t.history == s.history
    decreases |s.writes|
  {
    var n := |s.writes|;
    if n > 0 {
      var t := Apply(max, s, Land);
      assert Lands(n)[0] == Land && Lands(n)[1..] == Lands(n - 1);
      assert t.writes == s.writes[1..] && t.reading == Some(Reading(s.reading.value.item, n - 1));
      assert t.queue == s.queue && t.log == s.log && t.history == s.history && Latest(t) == Latest(s);
      ReadReaches(max, t);
    }
  }

  ghost predicate AtHead(s: State) {
    s.phase.Replaying? ==> s.queue != [] && s.queue[0] == s.phase.action
  }

  function Lands(n: nat): seq<Event> {
    seq(n, _ => Land)
  }

  lemma {:induction false} AllLand(max: nat, s: State)
    requires s.writes != []
    ensures var t := Run(max, s, Lands(|s.writes|));
            && t.stored == Saved(s.writes[|s.writes| - 1]) && t.writes == []
            && t.queue == s.queue && t.history == s.history && t.log == s.log && (s.reading.None? ==> t.reading.None?)
    decreases |s.writes|
  {
    var n := |s.writes|;
    var t := Apply(max, s, Land);
    assert Lands(n)[0] == Land && Lands(n)[1..] == Lands(n - 1);
    assert t.writes == s.writes[1..] && t.queue == s.queue && t.history == s.history && t.log == s.log;
    assert s.reading.None? ==> t.reading.None?;
    if n > 1 {
      assert t.writes[n - 2] == s.writes[n - 1];
      AllLand(max, t);
    }
  }

  /** The action that a full queue puts behind the one being replayed. */
  function Second(s: State): nat {
    if |s.queue| > 1 then s.queue[1].id else |s.history|
  }

  /** One more action, and the end of the replay takes the wrong one off. */
  lemma EvictionOvertakes(max: nat, s: State, body: string)
    requires max >= 1 && Inv(max, s) && AtHead(s) && s.phase.Replaying? && |s.queue| == max && s.reading.None?
    requires Second(s) !in Replayed(s.log)
    ensures
      var t := Apply(max, Apply(max, s, Enqueue(body)), Settled(true));
      && Inv(max, t) && t.reading.None? && t.writes != [] && t.writes[|t.writes| - 1] == t.queue && t.log == s.log
      && Second(s) < |t.history| && Second(s) !in IdsOf(t.queue)
  {
    var s1 := Apply(max, s, Enqueue(body));
    StepKeepsInv(max, s, Enqueue(body));
    StepKeepsInv(max, s1, Settled(true));
    SecondIsFirst(max, s, body);
    IdsAreDistinct(max, s1.queue, s1.history);
    hide Inv, IdsOf, Replayed;
  }

  lemma SecondIsFirst(max: nat, s: State, body: string)
    requires max >= 1 && Inv(max, s) && |s.queue| == max
    ensures var s1 := Enqueued(max, s, body);
            s1.queue[0].id == Second(s) < |s1.history| && IsList(max, s1.queue, s1.history)
  {
    EnqueuedIsList(max, s, body);
    if |s.queue| > 1 {
      assert s.queue[1] in s.queue;
    }
  }

  lemma IdsAreDistinct(max: nat, q: seq<Action>, history: seq<Action>)
    requires IsList(max, q, history)
    ensures q != [] ==> q[0].id !in IdsOf(Shift(q))
  {
  }

  /**
  A full queue in the middle of a replay: one more action, and the replay's end removes another one, which no run ever
  replays once the writes have landed.
  */
  lemma EvictionLosesForGood(max: nat, s: State, body: string, more: seq<Event>)
    requires max >= 1 && Inv(max, s) && AtHead(s) && s.phase.Replaying? && |s.queue| == max && s.reading.None?
    requires Second(s) !in Replayed(s.log)
    ensures Gone(Run(max, s, [Enqueue(body), Settled(true)] + (Lands(|s.writes| + 2) + more)), Second(s))
  {
    var s2 := Apply(max, Apply(max, s, Enqueue(body)), Settled(true));
    var t := Run(max, s2, Lands(|s2.writes|));
    EvictionOvertakes(max, s, body);
    AllLand(max, s2);
    assert |s2.writes| == |s.writes| + 2;
    hide Inv, IdsOf, Replayed, Apply, Run, Lands;
    assert Gone(t, Second(s));
    RunKeepsInv(max, s2, Lands(|s2.writes|));
    RunTwo(max, s, Enqueue(body), Settled(true));
    RunAppend(max, s, [Enqueue(body), Settled(true)], Lands(|s.writes| + 2) + more);
    RunAppend(max, s2, Lands(|s.writes| + 2), more);
    GoneForGood(max, t, more, Second(s));
  }

  // ---------------------------------------------------------------------------------------------
  // Eviction between flushes
  // ---------------------------------------------------------------------------------------------

  function Enqueues(bodies: seq<string>): seq<Event> {
    seq(|bodies|, i requires 0 <= i < |bodies| => Enqueue(bodies[i]))
  }

  /** The longest suffix that holds at most `max` actions. */
  function Last(max: nat, all: seq<Action>): seq<Action> {
    if |all| <= max then all else all[|all| - max..]
  }

  lemma DropPast(front: seq<Action>, back: seq<Action>, k: nat)
    requires k <= |back|
    ensures (front + back)[|front| + k..] == back[k..]
  {
  }

  lemma Associate(a: seq<Action>, b: seq<Action>, c: seq<Action>)
    ensures a + b + c == a + (b + c)
  {
  }

  lemma LastAppend(max: nat, all: seq<Action>, rest: seq<Action>)
    ensures Last(max, Last(max, all) + rest) == Last(max, all + rest)
  {
    if |all| > max {
      var front, back := all[..|all| - max], all[|all| - max..];
      assert all == front + back;
      Associate(front, back, rest);
      DropPast(front, back + rest, |rest|);
    }
  }

  lemma LastOfLast(max: nat, queue: seq<Action>, first: seq<Action>, rest: seq<Action>)
    ensures Last(max, Last(max, queue + first) + rest) == Last(max, queue + (first + rest))
  {
    hide *;
    Associate(queue, first, rest);
    LastAppend(max, queue + first, rest);
  }

  lemma EnqueueKeepsLast(max: nat, s: State, body: string)
    requires max >= 1 && |s.queue| <= max
    ensures Enqueued(max, s, body).queue == Last(max, s.queue + [Action(|s.history|, body)])
    ensures |Enqueued(max, s, body).queue| <= max && |Enqueued(max, s, body).history| == |s.history| + 1
  {
  }

  /** The actions that enqueues make, numbered from `from`. */
  function Actions(from: nat, bodies: seq<string>): seq<Action> {
    seq(|bodies|, i requires 0 <= i < |bodies| => Action(from + i, bodies[i]))
  }

  lemma ActionsSplit(from: nat, bodies: seq<string>)
    requires bodies != []
    ensures Actions(from, bodies) == [Action(from, bodies[0])] + Actions(from + 1, bodies[1..])
  {
  }

  lemma RunEnqueues(max: nat, s: State, bodies: seq<string>)
    requires bodies != []
    ensures Run(max, s, Enqueues(bodies)) == Run(max, Enqueued(max, s, bodies[0]), Enqueues(bodies[1..]))
  {
    hide Enqueued;
    assert Enqueues(bodies)[1..] == Enqueues(bodies[1..]);
  }

  /** From a queue within capacity, any number of enqueues leave the longest suffix of old and new actions that fits. */
  lemma {:induction false} EnqueuesKeepLongestSuffix(max: nat, s: State, bodies: seq<string>)
    requires max >= 1 && |s.queue| <= max
    ensures Run(max, s, Enqueues(bodies)).queue == Last(max, s.queue + Actions(|s.history|, bodies))
    decreases bodies
  {
    if bodies == [] {
      assert s.queue + Actions(|s.history|, []) == s.queue;
    } else {
      EnqueueKeepsLast(max, s, bodies[0]);
      RunEnqueues(max, s, bodies);
      ActionsSplit(|s.history|, bodies);
      hide *;
      EnqueuesKeepLongestSuffix(max, Enqueued(max, s, bodies[0]), bodies[1..]);
      LastOfLast(max, s.queue, [Action(|s.history|, bodies[0])], Actions(|s.history| + 1, bodies[1..]));
    }
  }

  // ---------------------------------------------------------------------------------------------
  // The queue as an object
  // ---------------------------------------------------------------------------------------------

  lemma {:induction false} RunOneMore(max: nat, s: State, events: seq<Event>, i: nat)
    requires i < |events|
    ensures Run(max, s, events[..i + 1]) == Apply(max, Run(max, s, events[..i]), events[i])
    decreases i
  {
    hide Apply;
    if i > 0 {
      RunOneMore(max, Apply(max, s, events[0]), events[1..], i - 1);
      assert events[..i + 1][1..] == events[1..][..i] && events[..i][1..] == events[1..][..i - 1];
    } else {
      assert events[..1][1..] == [];
    }
  }

  /** Whether an event ends what a suspended flush waits for. */
  predicate EndsWait(phase: Phase, e: Event) {
    (phase.Replaying? && e.Settled?) || (phase == Persisting(0) && e.Persisted?)
  }

  /** A flush still waits for the same replay, or for its write. */
  predicate StillWaits(before: Phase, after: Phase) {
    (before.Replaying? && after == before) || (before.Persisting? && after.Persisting?)
  }

  class Queue {
    const maxSize: nat
    var queue: seq<Action>
    var stored: Item
    var writes: seq<seq<Action>>
    var reading: Option<Reading>
    var phase: Phase
    ghost var history: seq<Action>
    ghost var log: seq<Call>
    ghost var since: nat
    ghost var errors: seq<Action>
    ghost var discarded: set<nat>
    ghost var landed: set<nat>
    ghost var crashes: nat
    var nextId: nat

    ghost predicate Valid()
      reads this
    {
      nextId == |history|
    }

    ghost function Now(): State
      reads this
    {
      State(queue, stored, writes, reading, phase, history, log, since, errors, discarded, landed, crashes)
    }

    constructor (maxSize: nat)
      ensures Valid() && this.maxSize == maxSize && Now() == Init
    {
      this.maxSize, queue, stored, writes, reading, phase, nextId := maxSize, [], Absent, [], None, Idle, 0;
      history, log, since, errors, discarded, landed, crashes := [], [], 0, [], {}, {}, 0;
    }

    method Enqueue(body: string)
      requires Valid()
      modifies this
      ensures Valid() && Now() == Apply(maxSize, old(Now()), Event.Enqueue(body))
      ensures var action, full := Action(|old(history)|, body), |old(queue)| >= maxSize && old(queue) != [];
              && queue == (if full then old(queue)[1..] else old(queue)) + [action]
              && history == old(history) + [action] && writes == old(writes) + [queue]
              && discarded == if full then old(discarded) + {old(queue)[0].id} else old(discarded)
      ensures stored == old(stored) && reading == old(reading) && phase == old(phase) && log == old(log)
    {
      var action := Action(nextId, body);
      nextId := nextId + 1;
      history := history + [action];
      if |queue| >= maxSize && queue != [] {
        discarded := discarded + {queue[0].id};
        queue := queue[1..];
      }
      queue := queue + [action];
      Persist();
    }

    method Clear()
      requires Valid()
      modifies this
      ensures Valid() && Now() == Apply(maxSize, old(Now()), Event.Clear)
      ensures queue == [] && writes == old(writes) + [[]] && discarded == old(discarded) + IdsOf(old(queue))
      ensures stored == old(stored) && reading == old(reading) && phase == old(phase) && log == old(log)
    {
      discarded := discarded + IdsOf(queue);
      queue := [];
      Persist();
    }

    /** Calls setItem. */
    method Persist()
      modifies this`writes
      ensures writes == old(writes) + [queue]
    {
      writes := writes + [queue];
    }

    /** Storage carries out the oldest setItem. */
    method Land()
      requires Valid()
      modifies this
      ensures Valid() && Now() == Apply(maxSize, old(Now()), Event.Land)
      ensures old(writes) != [] ==> stored == Saved(old(writes)[0]) && writes == old(writes)[1..]
      ensures old(writes) == [] ==> Now() == old(Now())
    {
      if writes == [] {
        return;
      }
      stored, landed := Saved(writes[0]), landed + IdsOf(writes[0]);
      writes := writes[1..];
      if phase.Persisting? {
        phase := Persisting(Nearer(phase.ahead));
      }
      if reading.Some? {
        reading := Some(Reading(reading.value.item, Nearer(reading.value.ahead)));
      }
    }

    /** The first stretch of restore, up to its getItem. */
    method BeginRestore()
      requires Valid()
      modifies this`reading
      ensures Valid() && Now() == Apply(maxSize, old(Now()), Read)
      ensures reading == if old(reading).Some? then old(reading)
                         else Some(Reading(if writes == [] then stored else Saved(writes[|writes| - 1]), |writes|))
    {
      if reading.None? {
        reading := Some(Reading(if writes == [] then stored else Saved(writes[|writes| - 1]), |writes|));
      }
    }

    /** The second stretch: what was read takes the place of the queue. */
    method EndRestore()
      requires Valid()
      modifies this`queue, this`reading
      ensures Valid() && Now() == Apply(maxSize, old(Now()), Restored)
      ensures old(reading).Some? && old(reading).value.ahead == 0 ==>
                reading == None && match old(reading).value.item
                                   case Saved(actions) => queue == actions
                                   case Corrupt => queue == []
                                   case _ => queue == old(queue)
      ensures old(reading).None? || old(reading).value.ahead > 0 ==> reading == old(reading) && queue == old(queue)
    {
      if reading.None? || reading.value.ahead > 0 {
        return;
      }
      match reading.value.item {
        case Saved(actions) => queue := actions;
        case Corrupt => queue := [];
        case _ =>
      }
      reading := None;
    }

    /** The process dies: a new queue over the same storage. */
    method Restart()
      requires Valid()
      modifies this
      ensures Valid() && Now() == Apply(maxSize, old(Now()), Crash)
      ensures queue == [] && writes == [] && reading == None && phase == Idle && stored == old(stored)
    {
      crashes, since := crashes + 1, |log|;
      queue, writes, reading, phase := [], [], None, Idle;
    }

    method RemoveFirst()
      requires Valid()
      modifies this`queue, this`writes, this`phase
      ensures Valid() && Now() == Removed(old(Now())) && phase.Persisting?
    {
      if queue != [] {
        queue := queue[1..];
      }
      Persist();
      phase := Persisting(|writes|);
    }

    /** While a replay or a write is pending other calls run; stops in front of the event that ends the wait. */
    method Await(script: seq<Event>, from: nat, ghost start: State) returns (i: nat)
      requires Valid() && !phase.Idle? && from <= |script| && Now() == Run(maxSize, start, script[..from])
      requires forall e <- script :: !e.Crash?
      modifies this
      ensures Valid() && StillWaits(old(phase), phase)
      ensures from <= i <= |script| && (i < |script| ==> EndsWait(phase, script[i]))
      ensures Now() == Run(maxSize, start, script[..i])
    {
      i := from;
      while i < |script| && !EndsWait(phase, script[i])
        invariant from <= i <= |script| && Valid() && StillWaits(old(phase), phase)
        invariant Now() == Run(maxSize, start, script[..i])
      {
        hide Run, Enqueued;
        RunOneMore(maxSize, start, script, i);
        match script[i] {
          case Enqueue(body) => Enqueue(body);
          case Clear => Clear();
          case Land => Land();
          case Read => BeginRestore();
          case Restored => EndRestore();
          case _ => // flush returns at once
        }
        i := i + 1;
      }
    }

    /** One call of the replay handler and what happens until it settles. */
    method Replay(action: Action, second: bool, script: seq<Event>, from: nat, ghost start: State)
      returns (used: nat, settled: bool, ok: bool)
      requires Valid() && from <= |script| && forall e <- script :: !e.Crash?
      requires Run(maxSize, start, script[..from]) ==
               Now().(phase := Replaying(action, second), log := log + [Call(action, second)])
      modifies this
      ensures Valid() && phase == Replaying(action, second) && from <= used <= |script|
      ensures settled ==> from < used && Run(maxSize, start, script[..used]) == Apply(maxSize, Now(), Settled(ok))
      ensures !settled ==> used == |script| && Run(maxSize, start, script[..used]) == Now()
    {
      hide Run, Enqueued, NextReplay, Removed;
      phase, log := Replaying(action, second), log + [Call(action, second)];
      used := Await(script, from, start);
      settled, ok := used < |script|, false;
      if settled {
        RunOneMore(maxSize, start, script, used);
        ok := script[used].ok;
        used := used + 1;
      }
    }

    /** The removal of a replayed action and what happens until its write is done. */
    method Finish(script: seq<Event>, from: nat, ghost start: State) returns (used: nat, done: bool)
      requires Valid() && from <= |script| && forall e <- script :: !e.Crash?
      requires Run(maxSize, start, script[..from]) == Removed(Now())
      modifies this
      ensures Valid() && phase.Persisting? && from <= used <= |script|
      ensures done ==> Run(maxSize, start, script[..used]) == NextReplay(Now())
      ensures !done ==> used == |script| && Run(maxSize, start, script[..used]) == Now()
    {
      hide Run, Enqueued, NextReplay, Removed;
      RemoveFirst();
      used := Await(script, from, start);
      done := used < |script|;
      if done {
        RunOneMore(maxSize, start, script, used);
        used := used + 1;
      }
    }

    /** Replays the queue; `script` is what happens while the flush is suspended. A wait it does not end stays so. */
    method Flush(script: seq<Event>) returns (used: nat)
      requires Valid() && forall e <- script :: !e.Crash?
      modifies this
      ensures Valid() && used <= |script|
      ensures Now() == Run(maxSize, Apply(maxSize, old(Now()), Event.Flush), script[..used])
      ensures old(phase).Idle? && !phase.Idle? ==> used == |script|
    {
      used := 0;
      if !phase.Idle? || queue == [] {
        return;
      }
      ghost var start := Apply(maxSize, Now(), Event.Flush);
      while queue != []
        invariant Valid() && used <= |script|
        invariant NextReplay(Now()) == Run(maxSize, start, script[..used])
        decreases |script| - used
      {
        hide Run, Enqueued, Removed;
        var action := queue[0];
        var settled, ok, done;
        used, settled, ok := Replay(action, false, script, used, start);
        if settled && !ok {
          used, settled, ok := Replay(action, true, script, used, start);
          if settled && !ok {
            errors := errors + [action];
          }
        }
        if !settled {
          return;
        }
        used, done := Finish(script, used, start);
        if !done {
          return;
        }
      }
      phase := Idle;
    }
  }
}
