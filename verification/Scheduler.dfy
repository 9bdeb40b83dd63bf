/**
Scheduled broadcasts: any number of pollers share one sorted set, and removing a member is what claims it.

A member holds the broadcast's id and request; its score is the request's `scheduledAt`. What happens to a broadcast
after its progress hash is complete is BroadcastRuns.
*/
module Scheduler {
  import opened Options

  datatype Member = Member(id: string, at: int)

  /** The HSETs that write the progress hash; a resume needs all of them. */
  const PROGRESS_FIELDS := 7

  /** A broadcast taken out of the set, and how many fields of its progress hash are written. */
  datatype Claim = Claim(m: Member, written: nat)

  /** A poll under way: what it read as due and has not come to, and the claim it is executing, if any. */
  datatype Poller = Poller(todo: seq<Member>, holding: Option<Claim>)

  datatype State = State(
    clock: int,
    scheduled: set<Member>,
    pollers: map<nat, Poller>,
    added: multiset<Member>, // every member that was put into the set
    begun: multiset<Member>, // broadcasts whose progress hash was completed
    refused: multiset<Member>) // broadcasts turned down: no such list, archived, nobody confirmed, already running

  datatype Step =
    | Schedule(m: Member)
    | Poll(p: nat, due: seq<Member>, now: int)
    | Take(p: nat) // ZREM
    | Refuse(p: nat) // a validation error, logged
    | WriteField(p: nat) // one HSET of the progress hash
    | Throw(p: nat) // any other error of the execution: logged, and the poll goes on
    | Done(p: nat)
    | Crash(p: nat) // the process dies, or an error ends the poll

  const Init := State(0, {}, map[], multiset{}, multiset{}, multiset{})

  /** ZRANGEBYSCORE -inf now: the members that are due, each once, by score. */
  ghost predicate IsDue(scheduled: set<Member>, now: int, due: seq<Member>) {
    && (forall m :: m in due <==> m in scheduled && m.at <= now)
    && (forall i, j | 0 <= i < j < |due| :: due[i] != due[j] && due[i].at <= due[j].at)
  }

  predicate Holds(s: State, p: nat) {
    p in s.pollers && s.pollers[p].holding.Some?
  }

  ghost predicate Enabled(s: State, step: Step) {
    match step
    case Schedule(_) => true
    case Poll(p, due, now) => p !in s.pollers && s.clock <= now && IsDue(s.scheduled, now, due)
    case Take(p) => p in s.pollers && s.pollers[p].holding.None? && s.pollers[p].todo != []
    case Refuse(p) => Holds(s, p) && s.pollers[p].holding.value.written == 0
    case WriteField(p) => Holds(s, p)
    case Throw(p) => Holds(s, p)
    case Done(p) => p in s.pollers && s.pollers[p] == Poller([], None)
    case Crash(p) => p in s.pollers
  }

  /** The poller with its claim settled one way or another. */
  function LetGo(s: State, p: nat): State
    requires p in s.pollers
  {
    s.(pollers := s.pollers[p := s.pollers[p].(holding := None)])
  }

  function Next(s: State, step: Step): State
    requires Enabled(s, step)
  {
    match step
    case Schedule(m) =>
      s.(scheduled := s.scheduled + {m}, added := if m in s.scheduled then s.added else s.added + multiset{m})
    case Poll(p, due, now) => s.(clock := now, pollers := s.pollers[p := Poller(due, None)])
    case Take(p) =>
      var m, rest := s.pollers[p].todo[0], s.pollers[p].todo[1..];
      s.(scheduled := s.scheduled - {m},
      pollers := s.pollers[p := Poller(rest, if m in s.scheduled then Some(Claim(m, 0)) else None)])
    case Refuse(p) => LetGo(s, p).(refused := s.refused + multiset{s.pollers[p].holding.value.m})
    case WriteField(p) =>
      var Claim(m, written) := s.pollers[p].holding.value;
      if written + 1 == PROGRESS_FIELDS then LetGo(s, p).(begun := s.begun + multiset{m})
      else s.(pollers := s.pollers[p := s.pollers[p].(holding := Some(Claim(m, written + 1)))])
    case Throw(p) => LetGo(s, p)
    case Done(p) => s.(pollers := s.pollers - {p})
    case Crash(p) => s.(pollers := s.pollers - {p})
  }

  predicate IsHolding(poller: Poller, m: Member) {
    poller.holding.Some? && poller.holding.value.m == m
  }

  function Holders(pollers: map<nat, Poller>, m: Member): set<nat> {
    set p <- pollers | IsHolding(pollers[p], m)
  }

  function One(b: bool): nat {
    if b then 1 else 0
  }

  /** How many times the member was added and is now neither waiting, nor held, nor begun, nor refused. */
  function Missing(s: State, m: Member): int {
    s.added[m] - One(m in s.scheduled) - |Holders(s.pollers, m)| - s.begun[m] - s.refused[m]
  }

  ghost predicate PollerOnTime(poller: Poller, clock: int) {
    && (forall m <- poller.todo :: m.at <= clock)
    && (poller.holding.Some? ==> poller.holding.value.m.at <= clock)
  }

  /** Nothing is claimed before its time. */
  ghost predicate OnTime(s: State) {
    && (forall p <- s.pollers :: PollerOnTime(s.pollers[p], s.clock))
    && (forall m <- s.begun :: m.at <= s.clock)
  }

  lemma PutHolders(pollers: map<nat, Poller>, p: nat, poller: Poller, m: Member)
    ensures |Holders(pollers[p := poller], m)| ==
            |Holders(pollers, m)| + One(IsHolding(poller, m)) - One(p in pollers && IsHolding(pollers[p], m))
  {
    var before, after := Holders(pollers, m), Holders(pollers[p := poller], m);
    assert after - {p} == before - {p};
    assert |after| == |after - {p}| + One(p in after);
    assert |before| == |before - {p}| + One(p in before);
  }

  lemma DropHolders(pollers: map<nat, Poller>, p: nat, m: Member)
    requires p in pollers
    ensures |Holders(pollers - {p}, m)| == |Holders(pollers, m)| - One(IsHolding(pollers[p], m))
  {
    assert Holders(pollers - {p}, m) == Holders(pollers, m) - {p};
  }

  /** A claim of m ends, by a crash or an error, before its progress hash is complete. */
  ghost predicate Abandons(s: State, step: Step, m: Member) {
    (step.Crash? || step.Throw?) && step.p in s.pollers && IsHolding(s.pollers[step.p], m)
  }

  lemma StepMisses(s: State, step: Step, m: Member)
    requires Enabled(s, step)
    ensures Missing(Next(s, step), m) == Missing(s, m) + if Abandons(s, step, m) then 1 else 0
  {
    match step
    case Schedule(_) =>
    case Done(p) => DropHolders(s.pollers, p, m);
    case Crash(p) => DropHolders(s.pollers, p, m);
    case _ =>
      PutHolders(s.pollers, step.p, Next(s, step).pollers[step.p], m);
      hide Holders;
  }

  lemma StepKeepsTime(s: State, step: Step)
    requires Enabled(s, step) && OnTime(s)
    ensures OnTime(Next(s, step))
  {
    forall p <- Next(s, step).pollers ensures PollerOnTime(Next(s, step).pollers[p], Next(s, step).clock) {
      if p in s.pollers {
        assert PollerOnTime(s.pollers[p], s.clock);
      }
    }
  }

  ghost predicate IsRun(s: State, steps: seq<Step>)
    decreases steps
  {
    steps == [] || (Enabled(s, steps[0]) && IsRun(Next(s, steps[0]), steps[1..]))
  }

  ghost function End(s: State, steps: seq<Step>): State
    requires IsRun(s, steps)
    decreases steps
  {
    if steps == [] then s else End(Next(s, steps[0]), steps[1..])
  }

  /** How often a run abandons a claim of m. */
  ghost function Abandoned(s: State, steps: seq<Step>, m: Member): nat
    requires IsRun(s, steps)
    decreases steps
  {
    if steps == [] then 0
    else (if Abandons(s, steps[0], m) then 1 else 0) + Abandoned(Next(s, steps[0]), steps[1..], m)
  }

  /** Over every run what is missing is what was abandoned, and nothing is claimed early. */
  lemma {:induction false} RunKeepsAccount(s: State, steps: seq<Step>, m: Member)
    requires IsRun(s, steps) && OnTime(s)
    ensures Missing(End(s, steps), m) == Missing(s, m) + Abandoned(s, steps, m) && OnTime(End(s, steps))
    decreases steps
  {
    if steps != [] {
      StepMisses(s, steps[0], m);
      StepKeepsTime(s, steps[0]);
      hide Missing, OnTime, Next, Enabled, Abandons;
      RunKeepsAccount(Next(s, steps[0]), steps[1..], m);
    }
  }

  /** In every interleaving of any number of pollers a broadcast scheduled once is begun at most once, never early. */
  lemma BegunAtMostOnce(steps: seq<Step>, m: Member)
    requires IsRun(Init, steps)
    ensures var t := End(Init, steps); t.begun[m] <= t.added[m] && (m in t.begun ==> m.at <= t.clock)
  {
    RunKeepsAccount(Init, steps, m);
  }

  ghost predicate RunAbandons(s: State, steps: seq<Step>, m: Member)
    requires IsRun(s, steps)
    decreases steps
  {
    steps != [] && (Abandons(s, steps[0], m) || RunAbandons(Next(s, steps[0]), steps[1..], m))
  }

  lemma {:induction false} AbandonedCounts(s: State, steps: seq<Step>, m: Member)
    requires IsRun(s, steps)
    ensures Abandoned(s, steps, m) > 0 <==> RunAbandons(s, steps, m)
    decreases steps
  {
    if steps != [] {
      AbandonedCounts(Next(s, steps[0]), steps[1..], m);
    }
  }

  /**
  A scheduled broadcast goes missing, neither waiting nor held nor begun nor refused, exactly when a claim of it ended
  in a crash or in any error but a refusal before its progress hash was complete; the process may well live on.
  */
  lemma LostExact(steps: seq<Step>, m: Member)
    requires IsRun(Init, steps)
    ensures Missing(End(Init, steps), m) > 0 <==> RunAbandons(Init, steps, m)
  {
    RunKeepsAccount(Init, steps, m);
    AbandonedCounts(Init, steps, m);
    hide IsRun, RunAbandons, End, Abandoned;
    assert Missing(Init, m) == 0;
  }

  /** One step in front of a run. */
  lemma OneStep(s: State, step: Step, rest: seq<Step>, m: Member)
    requires Enabled(s, step) && IsRun(Next(s, step), rest)
    ensures IsRun(s, [step] + rest) && End(s, [step] + rest) == End(Next(s, step), rest)
    ensures RunAbandons(s, [step] + rest, m) <==> Abandons(s, step, m) || RunAbandons(Next(s, step), rest, m)
  {
    assert ([step] + rest)[1..] == rest;
  }

  /** The smallest loss: one poller, one broadcast, and an error in its first query; the process goes on polling. */
  lemma ErrorLosesBroadcast(m: Member, now: nat)
    requires m.at <= now
    ensures
      var steps := [Schedule(m)] + ([Poll(0, [m], now)] + ([Take(0)] + ([Throw(0)] + [Done(0)])));
      IsRun(Init, steps) && Missing(End(Init, steps), m) == 1 && End(Init, steps).pollers == map[]
  {
    var s1 := Next(Init, Schedule(m));
    var s2 := Next(s1, Poll(0, [m], now));
    var s3 := Next(s2, Take(0));
    assert m in s2.scheduled && s2.pollers[0] == Poller([m], None) && [m][1..] == [];
    assert s3.pollers == map[0 := Poller([], Some(Claim(m, 0)))];
    var s4 := Next(s3, Throw(0));
    assert s4.pollers == map[0 := Poller([], None)];
    var s5 := Next(s4, Done(0));
    assert s5.pollers == map[] && Holders(s5.pollers, m) == {};
    hide Abandons, RunAbandons;
    assert IsRun(s5, []) && End(s5, []) == s5;
    assert [Done(0)] + [] == [Done(0)];
    OneStep(s4, Done(0), [], m);
    OneStep(s3, Throw(0), [Done(0)], m);
    OneStep(s2, Take(0), [Throw(0)] + [Done(0)], m);
    OneStep(s1, Poll(0, [m], now), [Take(0)] + ([Throw(0)] + [Done(0)]), m);
    OneStep(Init, Schedule(m), [Poll(0, [m], now)] + ([Take(0)] + ([Throw(0)] + [Done(0)])), m);
  }

  // ---------------------------------------------------------------------------------------------
  // One poll as a loop
  // ---------------------------------------------------------------------------------------------

  function Members(due: seq<Member>): set<Member> {
    set m <- due
  }

  /** What other pollers removed by the time of the n-th removal. */
  function Taken(others: seq<set<Member>>, n: nat): set<Member>
    requires n <= |others|
  {
    set i, m | 0 <= i < n && m in others[i] :: m
  }

  /** Of the first n due members, those nobody else removed first. */
  function Won(due: seq<Member>, others: seq<set<Member>>, n: nat): seq<Member>
    requires n <= |due| == |others|
  {
    if n == 0 then []
    else Won(due, others, n - 1) + (if due[n - 1] in Taken(others, n) then [] else [due[n - 1]])
  }

  /** Whoever is won was due at some place of the order, and nobody else had removed it by the removal at that place. */
  lemma {:induction false} WonExact(due: seq<Member>, others: seq<set<Member>>, n: nat, m: Member)
    requires n <= |due| == |others|
    ensures m in Won(due, others, n) <==> exists i | 0 <= i < n :: due[i] == m && WonAt(due, others, i)
  {
    if n > 0 {
      WonExact(due, others, n - 1, m);
      var i := n - 1;
      assert WonAt(due, others, i) <==> due[i] !in Taken(others, n);
      var last := if due[i] in Taken(others, n) then [] else [due[i]];
      assert m in Won(due, others, n) <==> m in Won(due, others, n - 1) || m in last;
    }
  }

  ghost predicate WonAt(due: seq<Member>, others: seq<set<Member>>, i: nat)
    requires i < |due| == |others|
  {
    forall j | 0 <= j <= i :: due[i] !in others[j]
  }

  /** Each is won once, and in the order of the scores. */
  lemma {:induction false} WonInOrder(
    scheduled: set<Member>, now: int, due: seq<Member>, others: seq<set<Member>>, n: nat, i: nat, j: nat)
    requires IsDue(scheduled, now, due) && n <= |due| == |others| && i < j < |Won(due, others, n)|
    ensures var won := Won(due, others, n); won[i] != won[j] && won[i].at <= won[j].at
  {
    var won := Won(due, others, n - 1);
    if j < |won| {
      WonInOrder(scheduled, now, due, others, n - 1, i, j);
    } else {
      WonExact(due, others, n - 1, won[i]);
      assert won[i] in won;
      var k :| 0 <= k < n - 1 && due[k] == won[i] && WonAt(due, others, k);
    }
  }

  /** The progress hash is complete after seven writes, and not before. */
  lemma SevenWritesBegin(s: State, p: nat, m: Member, n: nat)
    requires p in s.pollers && s.pollers[p].holding == Some(Claim(m, 0)) && n <= 7
    ensures
      var steps := seq(n, _ => WriteField(p));
      && IsRun(s, steps)
      && if n == 7 then End(s, steps).begun == s.begun + multiset{m} && !Holds(End(s, steps), p)
         else End(s, steps).begun == s.begun && Holds(End(s, steps), p)
  {
    WritesGoOn(s, p, m, 0, n);
  }

  lemma {:induction false} WritesGoOn(s: State, p: nat, m: Member, written: nat, n: nat)
    requires p in s.pollers && s.pollers[p].holding == Some(Claim(m, written)) && written < 7 && written + n <= 7
    ensures
      var steps := seq(n, _ => WriteField(p));
      && IsRun(s, steps)
      && if written + n == 7 then End(s, steps).begun == s.begun + multiset{m} && !Holds(End(s, steps), p)
         else End(s, steps).begun == s.begun && Holds(End(s, steps), p)
    decreases n
  {
    if n > 0 {
      var steps := seq(n, _ => WriteField(p));
      assert steps[1..] == seq(n - 1, _ => WriteField(p));
      if written + 1 < 7 {
        WritesGoOn(Next(s, WriteField(p)), p, m, written + 1, n - 1);
      } else {
        assert steps[1..] == [];
      }
    }
  }

  class BroadcastScheduler {
    var scheduled: set<Member>
    var executed: seq<Member>

    constructor ()
      ensures scheduled == {} && executed == []
    {
      scheduled, executed := {}, [];
    }

    method Schedule(m: Member)
      modifies this`scheduled
      ensures scheduled == old(scheduled) + {m}
    {
      scheduled := scheduled + {m};
    }

    /** `others[i]` is what other pollers remove before this one's i-th removal. */
    method Poll(due: seq<Member>, now: int, others: seq<set<Member>>)
      requires IsDue(scheduled, now, due) && |others| == |due|
      modifies this
      ensures executed == old(executed) + Won(due, others, |due|)
      ensures scheduled == old(scheduled) - Taken(others, |due|) - Members(due)
    {
      var i := 0;
      while i < |due|
        invariant 0 <= i <= |due|
        invariant executed == old(executed) + Won(due, others, i)
        invariant scheduled == old(scheduled) - Taken(others, i) - Members(due[..i])
      {
        assert Taken(others, i + 1) == Taken(others, i) + others[i];
        assert Members(due[..i + 1]) == Members(due[..i]) + {due[i]} by {
          assert due[..i + 1] == due[..i] + [due[i]];
        }
        scheduled := scheduled - others[i];
        assert due[i] !in Members(due[..i]);
        var removed := due[i] in scheduled;
        scheduled := scheduled - {due[i]};
        if removed {
          executed := executed + [due[i]];
        }
        i := i + 1;
      }
      assert due[..i] == due;
    }
  }
}
