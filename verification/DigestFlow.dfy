/**
One digest buffer shared by any number of instances: where every event ends up.

Each Redis command is a step of its own, so additions and flushes of different instances interleave freely.
The flush lock may expire, or be deleted by an instance that no longer holds it, at any moment.
*/
module DigestFlow {
  import opened Options
  import opened Sorting

  /** A buffered event; `id` stands for the random suffix that makes every member unique. */
  datatype Event = Event(id: nat, timestamp: nat)

  function Timestamp(): Event -> int {
    (e: Event) => e.timestamp
  }

  /** MULTI(ZRANGEBYSCORE -inf +inf, DEL) by score, then Array.sort by timestamp: the batch taken from a buffer. */
  function Batch(buffer: seq<Event>): seq<Event> {
    SortBy(SortBy(buffer, Timestamp()), Timestamp())
  }

  lemma BatchIsSortedBuffer(buffer: seq<Event>)
    ensures Sorted(Batch(buffer), Timestamp())
    ensures multiset(Batch(buffer)) == multiset(buffer)
    ensures |Batch(buffer)| == |buffer|
  {
    SortBySorts(buffer, Timestamp());
    SortBySorted(SortBy(buffer, Timestamp()), Timestamp());
  }

  type Instance = nat

  /** A flush that was called, whose caller gets the batch, or one by the poller or at shutdown. */
  datatype Origin = ByCall | ByTimer

  /** Where an instance is inside a flush; `batch` is the index of what it took. */
  datatype Phase = HasLock | Took(batch: nat) | Released(batch: nat)

  datatype Job = Job(origin: Origin, phase: Phase)

  datatype State = State(
    handler: bool,               // whether the engine was given an onFlush handler
    buffer: seq<Event>,
    locked: bool,
    work: map<Instance, Job>,
    added: multiset<Event>,      // every event ever added
    expired: multiset<Event>,    // events that the TTL dropped
    batches: seq<seq<Event>>,    // what each MULTI took, in order
    returned: seq<nat>,          // the indices of the batches that a caller or the handler received
    unheard: seq<nat>,           // the indices of the batches whose flush ended in order but told nobody
    dropped: seq<nat>)           // the indices of the batches whose flush was cut short

  function Start(handler: bool): State {
    State(handler, [], false, map[], multiset{}, multiset{}, [], [], [], [])
  }

  datatype Step =
    | Add(e: Event)
    | Expire
    | Lock(i: Instance, origin: Origin)
    | LockExpires
    | Take(i: Instance)
    | Unlock(i: Instance)
    | Return(i: Instance)        // a called flush returns; a timed one calls the handler, if there is one
    | Crash(i: Instance)         // the process dies, or the flush ends in an error and returns nothing

  /** The batch an instance holds, if any. */
  function Holding(job: Job): Option<nat> {
    if job.phase.HasLock? then None else Some(job.phase.batch)
  }

  predicate Enabled(s: State, step: Step) {
    match step
    case Add(_) => true
    case Expire => true
    case Lock(i, _) => !s.locked && i !in s.work
    case LockExpires => true
    case Take(i) => i in s.work && s.work[i].phase.HasLock?
    case Unlock(i) => i in s.work && s.work[i].phase.Took?
    case Return(i) => i in s.work && s.work[i].phase.Released?
    case Crash(i) => i in s.work
  }

  /** Whether somebody receives the batch; the handler is not called for an empty one. */
  predicate Heard(s: State, job: Job) {
    job.origin.ByCall?
    || (s.handler && Holding(job).Some? && Holding(job).value < |s.batches| && s.batches[Holding(job).value] != [])
  }

  function Apply(s: State, step: Step): State
    requires Enabled(s, step)
  {
    match step
    case Add(e) => s.(buffer := s.buffer + [e], added := s.added + multiset{e})
    case Expire => s.(buffer := [], expired := s.expired + multiset(s.buffer))
    case Lock(i, origin) => s.(locked := true, work := s.work[i := Job(origin, HasLock)])
    case LockExpires => s.(locked := false)
    case Take(i) =>
      s.(buffer := [], batches := s.batches + [Batch(s.buffer)],
      work := s.work[i := s.work[i].(phase := Took(|s.batches|))])
    case Unlock(i) => s.(locked := false, work := s.work[i := s.work[i].(phase := Released(s.work[i].phase.batch))])
    case Return(i) =>
      var b := s.work[i].phase.batch;
      if Heard(s, s.work[i]) then s.(work := s.work - {i}, returned := s.returned + [b])
      else s.(work := s.work - {i}, unheard := s.unheard + [b])
    case Crash(i) =>
      s.(work := s.work - {i},
      dropped := if Holding(s.work[i]).None? then s.dropped else s.dropped + [Holding(s.work[i]).value])
  }

  function Run(handler: bool, steps: seq<Step>): Option<State> {
    if steps == [] then Some(Start(handler))
    else
      var prefix := Run(handler, steps[..|steps| - 1]);
      var step := steps[|steps| - 1];
      if prefix.Some? && Enabled(prefix.value, step) then Some(Apply(prefix.value, step)) else None
  }

  ghost function Total(batches: seq<seq<Event>>): multiset<Event> {
    if batches == [] then multiset{} else Total(batches[..|batches| - 1]) + multiset(batches[|batches| - 1])
  }

  /** Every event added is still buffered, has expired, or is in exactly one batch. */
  ghost predicate Conserved(s: State) {
    s.added == multiset(s.buffer) + s.expired + Total(s.batches)
  }

  lemma TotalMore(batches: seq<seq<Event>>, batch: seq<Event>)
    ensures Total(batches + [batch]) == Total(batches) + multiset(batch)
  {
    assert (batches + [batch])[..|batches|] == batches;
  }

  lemma TakeConserves(
    added: multiset<Event>, buffer: seq<Event>, expired: multiset<Event>, batches: seq<seq<Event>>)
    requires added == multiset(buffer) + expired + Total(batches)
    ensures added == multiset([]) + expired + Total(batches + [Batch(buffer)])
  {
    BatchIsSortedBuffer(buffer);
    TotalMore(batches, Batch(buffer));
    hide *;
  }

  lemma StepConserves(s: State, step: Step)
    requires Conserved(s) && Enabled(s, step)
    ensures Conserved(Apply(s, step))
  {
    hide Batch, Heard, Total;
    match step
    case Take(_) => TakeConserves(s.added, s.buffer, s.expired, s.batches);
    case _ =>
  }

  /** Over every interleaving no event is lost to, or duplicated by, concurrent additions and flushes. */
  lemma {:induction false} EventsAreConserved(handler: bool, steps: seq<Step>)
    requires Run(handler, steps).Some?
    ensures Conserved(Run(handler, steps).value)
  {
    if steps != [] {
      EventsAreConserved(handler, steps[..|steps| - 1]);
      StepConserves(Run(handler, steps[..|steps| - 1]).value, steps[|steps| - 1]);
    }
  }

  /** A batch is in the hands of at most one instance, and of none once it has been returned. */
  ghost predicate OneHolder(s: State) {
    && (forall i <- s.work | Holding(s.work[i]).Some? ::
          Holding(s.work[i]).value < |s.batches| && Holding(s.work[i]).value !in s.returned)
    && (forall i <- s.work, j <- s.work | i != j && Holding(s.work[i]).Some? ::
          Holding(s.work[i]) != Holding(s.work[j]))
    && (forall j | 0 <= j < |s.returned| :: s.returned[j] < |s.batches|)
    && (forall j, k | 0 <= j < k < |s.returned| :: s.returned[j] != s.returned[k])
  }

  lemma StepKeepsOneHolder(s: State, step: Step)
    requires OneHolder(s) && Enabled(s, step)
    ensures OneHolder(Apply(s, step))
  {
    hide Batch;
  }

  lemma {:induction false} BatchesReturnedOnce(handler: bool, steps: seq<Step>)
    requires Run(handler, steps).Some?
    ensures OneHolder(Run(handler, steps).value)
  {
    if steps != [] {
      hide OneHolder, Enabled, Apply;
      BatchesReturnedOnce(handler, steps[..|steps| - 1]);
      StepKeepsOneHolder(Run(handler, steps[..|steps| - 1]).value, steps[|steps| - 1]);
    }
  }

  function HoldersOf(work: map<Instance, Job>, b: nat): set<Instance> {
    set i <- work | Holding(work[i]) == Some(b)
  }

  function One(c: bool): nat {
    if c then 1 else 0
  }

  function Count(indices: seq<nat>, b: nat): nat {
    multiset(indices)[b]
  }

  /** Every batch is in exactly one place: returned, unheard, dropped, or in the hands of one instance. */
  ghost predicate PlacedOnce(s: State, b: nat) {
    Count(s.returned, b) + Count(s.unheard, b) + Count(s.dropped, b) + |HoldersOf(s.work, b)| == One(b < |s.batches|)
  }

  lemma PutHolder(work: map<Instance, Job>, i: Instance, job: Job, b: nat)
    ensures |HoldersOf(work[i := job], b)| ==
            |HoldersOf(work, b)| + One(Holding(job) == Some(b)) - One(i in work && Holding(work[i]) == Some(b))
  {
    var before, after := HoldersOf(work, b), HoldersOf(work[i := job], b);
    assert after - {i} == before - {i};
    assert |after| == |after - {i}| + One(i in after);
    assert |before| == |before - {i}| + One(i in before);
  }

  lemma DropHolder(work: map<Instance, Job>, i: Instance, b: nat)
    requires i in work
    ensures |HoldersOf(work - {i}, b)| == |HoldersOf(work, b)| - One(Holding(work[i]) == Some(b))
  {
    assert HoldersOf(work - {i}, b) == HoldersOf(work, b) - {i};
  }

  /** A batch leaves an instance for one of the three lists. */
  lemma LeavesFor(list: seq<nat>, b: nat, batch: nat)
    ensures Count(list + [batch], b) == Count(list, b) + One(batch == b)
  {
  }

  lemma EndKeepsPlaces(s: State, step: Step, b: nat)
    requires Enabled(s, step) && PlacedOnce(s, b) && (step.Return? || step.Crash?)
    ensures PlacedOnce(Apply(s, step), b)
  {
    hide Batch, Heard, HoldersOf, Count;
    DropHolder(s.work, step.i, b);
    var held := Holding(s.work[step.i]);
    if held.Some? {
      LeavesFor(s.returned, b, held.value);
      LeavesFor(s.unheard, b, held.value);
      LeavesFor(s.dropped, b, held.value);
    }
  }

  lemma StepKeepsPlaces(s: State, step: Step, b: nat)
    requires Enabled(s, step) && PlacedOnce(s, b)
    ensures PlacedOnce(Apply(s, step), b)
  {
    hide Batch, Heard, HoldersOf, Count;
    match step
    case Lock(i, origin) => PutHolder(s.work, i, Job(origin, HasLock), b);
    case Take(i) => PutHolder(s.work, i, s.work[i].(phase := Took(|s.batches|)), b);
    case Unlock(i) => PutHolder(s.work, i, s.work[i].(phase := Released(s.work[i].phase.batch)), b);
    case Return(i) => EndKeepsPlaces(s, step, b);
    case Crash(i) => EndKeepsPlaces(s, step, b);
    case _ =>
  }

  /** Over every interleaving each batch is exactly one of returned, unheard, dropped and held by one instance. */
  lemma {:induction false} BatchesArePlaced(handler: bool, steps: seq<Step>, b: nat)
    requires Run(handler, steps).Some?
    ensures PlacedOnce(Run(handler, steps).value, b)
  {
    if steps == [] {
      assert HoldersOf(map[], b) == {};
    } else {
      hide PlacedOnce, Enabled, Apply;
      BatchesArePlaced(handler, steps[..|steps| - 1], b);
      StepKeepsPlaces(Run(handler, steps[..|steps| - 1]).value, steps[|steps| - 1], b);
    }
  }

  /** The events of the batches with these indices. */
  ghost function Sum(batches: seq<seq<Event>>, indices: seq<nat>): multiset<Event> {
    if indices == [] then multiset{}
    else
      var last := indices[|indices| - 1];
      Sum(batches, indices[..|indices| - 1]) + if last < |batches| then multiset(batches[last]) else multiset{}
  }

  lemma {:induction false} SumAppend(batches: seq<seq<Event>>, a: seq<nat>, b: seq<nat>)
    ensures Sum(batches, a + b) == Sum(batches, a) + Sum(batches, b)
  {
    if b == [] {
      assert a + b == a;
    } else {
      var n := |b| - 1;
      SumAppend(batches, a, b[..n]);
      assert (a + b)[..|a + b| - 1] == a + b[..n];
    }
  }

  lemma {:induction false} SumPrefix(batches: seq<seq<Event>>, indices: seq<nat>, n: nat)
    requires n <= |batches| && forall i <- indices :: i < n
    ensures Sum(batches, indices) == Sum(batches[..n], indices)
  {
    if indices != [] {
      var k := |indices| - 1;
      assert indices[k] in indices && forall i <- indices[..k] :: i in indices;
      SumPrefix(batches, indices[..k], n);
    }
  }

  lemma SumOne(batches: seq<seq<Event>>, i: nat)
    requires i < |batches|
    ensures Sum(batches, [i]) == multiset(batches[i])
  {
    assert [i][..0] == [] && Sum(batches, [i][..0]) == multiset{};
  }

  lemma SumWithout(batches: seq<seq<Event>>, indices: seq<nat>, k: nat)
    requires k < |indices| && indices[k] < |batches|
    ensures Sum(batches, indices) == Sum(batches, indices[..k] + indices[k + 1..]) + multiset(batches[indices[k]])
  {
    assert indices == indices[..k] + ([indices[k]] + indices[k + 1..]);
    SumAppend(batches, indices[..k], [indices[k]] + indices[k + 1..]);
    SumAppend(batches, [indices[k]], indices[k + 1..]);
    SumAppend(batches, indices[..k], indices[k + 1..]);
    SumOne(batches, indices[k]);
  }

  /** The indices below n, each once, in some order. */
  ghost predicate IsEach(indices: seq<nat>, n: nat) {
    forall b: nat :: Count(indices, b) == One(b < n)
  }

  lemma EachWithoutAt(indices: seq<nat>, n: nat, k: nat, b: nat)
    requires n > 0 && IsEach(indices, n) && k < |indices| && indices[k] == n - 1
    ensures Count(indices[..k] + indices[k + 1..], b) == One(b < n - 1)
  {
    assert indices == indices[..k] + [n - 1] + indices[k + 1..];
    assert Count(indices, b) == One(b < n);
  }

  lemma EachWithout(indices: seq<nat>, n: nat) returns (k: nat, others: seq<nat>)
    requires n > 0 && IsEach(indices, n)
    ensures k < |indices| && indices[k] == n - 1 && others == indices[..k] + indices[k + 1..]
    ensures IsEach(others, n - 1) && forall i <- others :: i < n - 1
  {
    assert Count(indices, n - 1) == 1;
    assert n - 1 in multiset(indices);
    k :| 0 <= k < |indices| && indices[k] == n - 1;
    others := indices[..k] + indices[k + 1..];
    forall b: nat ensures Count(others, b) == One(b < n - 1) {
      EachWithoutAt(indices, n, k, b);
    }
    forall i <- others ensures i < n - 1 {
      MemberIsCounted(others, i);
    }
  }

  lemma MemberIsCounted(indices: seq<nat>, i: nat)
    requires i in indices
    ensures Count(indices, i) > 0
  {
    assert i in multiset(indices);
  }

  /** Taking every batch once, in any order, takes everything. */
  lemma {:induction false} SumOfEach(batches: seq<seq<Event>>, indices: seq<nat>)
    requires IsEach(indices, |batches|)
    ensures Sum(batches, indices) == Total(batches)
    decreases |batches|
  {
    if batches == [] {
      if indices != [] {
        MemberIsCounted(indices, indices[0]);
      }
    } else {
      hide Sum, Count, IsEach;
      var n := |batches| - 1;
      var k, others := EachWithout(indices, n + 1);
      SumWithout(batches, indices, k);
      SumPrefix(batches, others, n);
      SumOfEach(batches[..n], others);
    }
  }

  /** A flush ends in a crash or an error while it holds events. */
  ghost predicate CutsShort(s: State, step: Step) {
    step.Crash? && step.i in s.work && HoldsEvents(s, s.work[step.i])
  }

  /** A flush by the poller or at shutdown ends with events and there is no handler to give them to. */
  ghost predicate TellsNobody(s: State, step: Step) {
    step.Return? && !s.handler && step.i in s.work && s.work[step.i].origin.ByTimer? && HoldsEvents(s, s.work[step.i])
  }

  predicate HoldsEvents(s: State, job: Job) {
    Holding(job).Some? && Holding(job).value < |s.batches| && s.batches[Holding(job).value] != []
  }

  ghost predicate RunLoses(handler: bool, steps: seq<Step>) {
    steps != [] &&
    var front, last := steps[..|steps| - 1], steps[|steps| - 1];
    RunLoses(handler, front)
    || (Run(handler, front).Some? && var s := Run(handler, front).value; CutsShort(s, last) || TellsNobody(s, last))
  }

  ghost predicate InRange(s: State) {
    && (forall b <- s.unheard :: b < |s.batches|) && (forall b <- s.dropped :: b < |s.batches|)
    && (forall i <- s.work | Holding(s.work[i]).Some? :: Holding(s.work[i]).value < |s.batches|)
  }

  /** Some batch that nobody received held events. */
  ghost predicate Missed(s: State) {
    exists b <- s.unheard + s.dropped :: b < |s.batches| && s.batches[b] != []
  }

  lemma StepKeepsInRange(s: State, step: Step)
    requires Enabled(s, step) && InRange(s)
    ensures InRange(Apply(s, step))
  {
    hide Batch;
  }

  lemma StepMisses(s: State, step: Step)
    requires Enabled(s, step) && InRange(s)
    ensures Missed(Apply(s, step)) <==> Missed(s) || CutsShort(s, step) || TellsNobody(s, step)
  {
    hide Batch;
    var t := Apply(s, step);
    if Missed(s) {
      var b :| b in s.unheard + s.dropped && b < |s.batches| && s.batches[b] != [];
      assert b in t.unheard + t.dropped && t.batches[b] == s.batches[b];
    }
    if CutsShort(s, step) || TellsNobody(s, step) {
      var b := Holding(s.work[step.i]).value;
      assert b in t.unheard + t.dropped && t.batches[b] != [];
    }
  }

  /** A batch with events is missed exactly when some step of the run cut its flush short or told nobody of it. */
  lemma {:induction false} MissedExact(handler: bool, steps: seq<Step>)
    requires Run(handler, steps).Some?
    ensures InRange(Run(handler, steps).value)
    ensures Missed(Run(handler, steps).value) <==> RunLoses(handler, steps)
  {
    if steps != [] {
      hide Apply, Enabled, CutsShort, TellsNobody, Missed, InRange;
      MissedExact(handler, steps[..|steps| - 1]);
      StepMisses(Run(handler, steps[..|steps| - 1]).value, steps[|steps| - 1]);
      StepKeepsInRange(Run(handler, steps[..|steps| - 1]).value, steps[|steps| - 1]);
    } else {
      assert Start(handler).unheard + Start(handler).dropped == [];
    }
  }

  lemma NothingAdded(rest: multiset<Event>, last: seq<Event>)
    ensures rest + multiset(last) == multiset{} <==> rest == multiset{} && last == []
    ensures rest + multiset(last) == rest <==> last == []
  {
    if last != [] {
      assert last[0] in multiset(last) && (rest + multiset(last))[last[0]] > rest[last[0]];
    }
  }

  lemma Remainder(all: multiset<Event>, part: multiset<Event>, rest: multiset<Event>)
    requires all == part + rest
    ensures all == part <==> rest == multiset{}
  {
    if all == part {
      forall e ensures rest[e] == 0 {
        assert all[e] == part[e] + rest[e];
      }
    }
  }

  lemma {:induction false} SumIsEmpty(batches: seq<seq<Event>>, indices: seq<nat>)
    ensures Sum(batches, indices) == multiset{} <==> forall b <- indices :: b < |batches| ==> batches[b] == []
  {
    if indices != [] {
      var n := |indices| - 1;
      SumIsEmpty(batches, indices[..n]);
      assert indices == indices[..n] + [indices[n]];
      var last := if indices[n] < |batches| then batches[indices[n]] else [];
      NothingAdded(Sum(batches, indices[..n]), last);
    }
  }

  /**
  At rest every event added is still buffered, or expired, or was received by exactly one caller or handler, or was in a
  batch whose flush told nobody or was cut short.
  */
  lemma AddedIsReturned(handler: bool, steps: seq<Step>)
    requires Run(handler, steps).Some? && Run(handler, steps).value.work == map[]
    ensures
      var s := Run(handler, steps).value;
      s.added == multiset(s.buffer) + s.expired + Sum(s.batches, s.returned) + Sum(s.batches, s.unheard + s.dropped)
  {
    var s := Run(handler, steps).value;
    EventsAreConserved(handler, steps);
    var all := s.returned + (s.unheard + s.dropped);
    forall b: nat ensures Count(all, b) == One(b < |s.batches|) {
      BatchesArePlaced(handler, steps, b);
      assert HoldersOf(s.work, b) == {};
    }
    SumOfEach(s.batches, all);
    SumAppend(s.batches, s.returned, s.unheard + s.dropped);
  }

  /**
  At rest everything added is buffered, expired or received exactly when no flush that held events was cut short and
  none by the poller or at shutdown had no handler to give them to.
  */
  lemma NothingIsDropped(handler: bool, steps: seq<Step>)
    requires Run(handler, steps).Some? && Run(handler, steps).value.work == map[]
    ensures var s := Run(handler, steps).value;
            s.added == multiset(s.buffer) + s.expired + Sum(s.batches, s.returned) <==> !RunLoses(handler, steps)
  {
    var s := Run(handler, steps).value;
    AddedIsReturned(handler, steps);
    MissedExact(handler, steps);
    SumIsEmpty(s.batches, s.unheard + s.dropped);
    hide *;
    Remainder(s.added, multiset(s.buffer) + s.expired + Sum(s.batches, s.returned),
              Sum(s.batches, s.unheard + s.dropped));
  }

  /** One step more. */
  lemma RunMore(handler: bool, steps: seq<Step>, step: Step)
    requires Run(handler, steps).Some? && Enabled(Run(handler, steps).value, step)
    ensures Run(handler, steps + [step]) == Some(Apply(Run(handler, steps).value, step))
  {
    assert (steps + [step])[..|steps|] == steps;
  }

  /** When the TTL fires the whole buffer is gone, and what it held is on record as expired. */
  lemma ExpiryDropsBuffer(s: State)
    ensures var t := Apply(s, Expire);
            t == s.(buffer := t.buffer, expired := t.expired) && t.buffer == []
            && multiset(s.buffer) + s.expired == t.expired
  {
  }

  /** The states of a flush that nobody disturbs. */
  lemma QuietSteps(s: State, i: Instance, origin: Origin)
    requires !s.locked && i !in s.work
    ensures
      var b, batches := |s.batches|, s.batches + [Batch(s.buffer)];
      var s1 := s.(locked := true, work := s.work[i := Job(origin, HasLock)]);
      var s2 := s1.(buffer := [], batches := batches, work := s1.work[i := Job(origin, Took(b))]);
      var s3 := s2.(locked := false, work := s2.work[i := Job(origin, Released(b))]);
      && Enabled(s, Lock(i, origin)) && Apply(s, Lock(i, origin)) == s1
      && Enabled(s1, Take(i)) && Apply(s1, Take(i)) == s2
      && Enabled(s2, Unlock(i)) && Apply(s2, Unlock(i)) == s3
      && Enabled(s3, Return(i)) && s3.work - {i} == s.work
      && Apply(s3, Return(i)) ==
         if Heard(s3, Job(origin, Released(b))) then s3.(work := s.work, returned := s.returned + [b])
         else s3.(work := s.work, unheard := s.unheard + [b])
  {
    var b := |s.batches|;
    WorkStays(s.work, i, Job(origin, HasLock), Job(origin, Took(b)), Job(origin, Released(b)));
    hide Batch, Heard;
  }

  /** A flush that nobody disturbs: the buffer is emptied, and its caller or the handler receives all of it, sorted. */
  lemma QuietFlushReturns(s: State, i: Instance, origin: Origin)
    requires !s.locked && i !in s.work
    ensures
      var s3 := Apply(Apply(Apply(s, Lock(i, origin)), Take(i)), Unlock(i));
      var b, t := |s.batches|, Apply(s3, Return(i));
      && t.buffer == [] && !t.locked && t.work == s.work && t.dropped == s.dropped && t.added == s.added
      && |t.batches| == b + 1 && t.batches[..b] == s.batches
      && multiset(t.batches[b]) == multiset(s.buffer) && Sorted(t.batches[b], Timestamp())
      && (if origin.ByCall? || (s.handler && s.buffer != [])
          then t.returned == s.returned + [b] && t.unheard == s.unheard
          else t.returned == s.returned && t.unheard == s.unheard + [b])
  {
    QuietSteps(s, i, origin);
    BatchIsSortedBuffer(s.buffer);
    var b, batches := |s.batches|, s.batches + [Batch(s.buffer)];
    assert batches[..b] == s.batches && batches[b] == Batch(s.buffer) && |batches| == b + 1;
    assert Batch(s.buffer) == [] <==> s.buffer == [];
    hide Batch, Sorted, Apply, Enabled;
  }

  lemma WorkStays(work: map<Instance, Job>, i: Instance, a: Job, b: Job, c: Job)
    requires i !in work
    ensures work[i := a][i := b][i := c] - {i} == work
  {
  }

  /** Without a handler a timed flush hands its events to nobody, although nothing has gone wrong. */
  lemma TimedFlushTellsNobody(e: Event) returns (steps: seq<Step>)
    ensures Run(false, steps).Some?
    ensures var s := Run(false, steps).value;
            && s.work == map[] && s.added == multiset{e} && s.buffer == [] && s.expired == multiset{}
            && s.returned == [] && s.dropped == [] && forall step <- steps :: !step.Crash?
  {
    steps := [Add(e)];
    assert Run(false, []) == Some(Start(false));
    RunMore(false, [], Add(e));
    assert [] + [Add(e)] == steps;
    RunMore(false, steps, Lock(0, ByTimer));
    steps := steps + [Lock(0, ByTimer)];
    RunMore(false, steps, Take(0));
    steps := steps + [Take(0)];
    RunMore(false, steps, Unlock(0));
    steps := steps + [Unlock(0)];
    RunMore(false, steps, Return(0));
    steps := steps + [Return(0)];
  }

  lemma NewBatch(s: State, step: Step)
    requires Enabled(s, step)
    ensures Apply(s, step).batches == s.batches + if step.Take? then [Batch(s.buffer)] else []
  {
    hide Batch;
  }

  lemma {:induction false} BatchesAreSorted(handler: bool, steps: seq<Step>, b: nat)
    requires Run(handler, steps).Some? && b < |Run(handler, steps).value.batches|
    ensures Sorted(Run(handler, steps).value.batches[b], Timestamp())
  {
    var n := |steps| - 1;
    var s := Run(handler, steps[..n]).value;
    NewBatch(s, steps[n]);
    hide Apply, Enabled, Batch, Sorted;
    if b < |s.batches| {
      BatchesAreSorted(handler, steps[..n], b);
    } else {
      BatchIsSortedBuffer(s.buffer);
    }
  }

  lemma {:induction false} TotalCounts(batches: seq<seq<Event>>, b: nat, e: Event)
    requires b < |batches|
    ensures Total(batches)[e] >= multiset(batches[b])[e]
    ensures forall c | 0 <= c < |batches| && c != b && e in batches[c] :: Total(batches)[e] > multiset(batches[b])[e]
  {
    var n := |batches| - 1;
    if b < n {
      TotalCounts(batches[..n], b, e);
    } else {
      forall c | 0 <= c < n && e in batches[c] ensures Total(batches)[e] > multiset(batches[b])[e] {
        TotalCounts(batches[..n], c, e);
      }
    }
  }

  /** No event is handed out twice, whatever becomes of the flush lock. */
  lemma NoEventReturnedTwice(handler: bool, steps: seq<Step>, e: Event, j: nat, k: nat, j': nat, k': nat)
    requires Run(handler, steps).Some?
    requires
      var s := Run(handler, steps).value;
      && s.added[e] <= 1
      && j < |s.returned| && s.returned[j] < |s.batches| && k < |s.batches[s.returned[j]]|
      && j' < |s.returned| && s.returned[j'] < |s.batches| && k' < |s.batches[s.returned[j']]|
      && s.batches[s.returned[j]][k] == e && s.batches[s.returned[j']][k'] == e
    ensures j == j' && k == k'
  {
    EventsAreConserved(handler, steps);
    BatchesReturnedOnce(handler, steps);
    var s := Run(handler, steps).value;
    var b, b' := s.returned[j], s.returned[j'];
    TotalCounts(s.batches, b, e);
    if k < k' && b == b' {
      TwoOccurrences(s.batches[b], k, k');
    } else if k' < k && b == b' {
      TwoOccurrences(s.batches[b], k', k);
    }
  }

  /** The lock may indeed fail: it expires under one holder and admits a second, which finds the buffer empty. */
  lemma TwoHoldersTakeDisjointBatches(s: State, i: Instance, j: Instance, origin: Origin)
    requires i in s.work && s.work[i].phase.HasLock? && j !in s.work
    ensures
      var s1 := Apply(s, LockExpires);
      && Enabled(s1, Lock(j, origin))
      && var s2 := Apply(s1, Lock(j, origin));
      && Enabled(s2, Take(i))
      && var s3 := Apply(s2, Take(i));
      && Enabled(s3, Take(j))
      && Apply(s3, Take(j)).batches == s.batches + [Batch(s.buffer), []]
  {
  }
}
