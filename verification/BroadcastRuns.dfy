/**
One broadcast over crashes and resumes.

Every send and every Redis command is a step of its own, any runner may crash between two steps, the member table
may change at any step, and any number of runners may be at work: the lock is a 300-second key that nobody renews, and a
resume reads the progress hash before it asks for the lock.
*/
module BroadcastRuns {
  import opened MemberStatus
  import opened Options
  import opened MemberPages
  import opened Broadcast

  type RunnerId = nat

  /** Where a runner stands in the paging loop. */
  datatype Runner =
    | Querying(cursor: Option<nat>)
    | Sending(todo: seq<nat>, done: set<nat>, next: Option<nat>)
    | Finishing

  datatype State = State(
    table: Table,
    offset: Option<nat>, status: BroadcastStatus,   // the progress hash
    peeked: map<RunnerId, Option<nat>>,             // the offsets that resumes without the lock have read
    runners: map<RunnerId, Runner>,
    sent: seq<nat>,                                 // every send so far, in order
    crashes: nat,
    lateCrash: bool)                                // some runner crashed between its last offset and "completed"

  datatype Step =
    | Change(table: Table)
    | Peek(r: RunnerId)    // a resume's HGETALL
    | Lock(r: RunnerId)    // its SET NX succeeds
    | Leave(r: RunnerId)   // its SET NX fails, or the process dies before it
    | GiveUp(r: RunnerId)  // it finds no list, or an incomplete hash, and writes "failed"
    | Query(r: RunnerId)
    | Send(r: RunnerId)
    | SaveOffset(r: RunnerId)
    | Complete(r: RunnerId)
    | Fail(r: RunnerId)
    | Crash(r: RunnerId)

  /** The state once `executeBroadcast` has written the initial progress hash. */
  function Begun(table: Table): State {
    State(table, None, Running, map[], map[0 := Querying(None)], [], 0, false)
  }

  predicate Enabled(s: State, step: Step) {
    match step
    case Change(_) => true
    case Peek(r) => r !in s.runners && r !in s.peeked && s.status == Running
    case Lock(r) => r in s.peeked
    case Leave(r) => r in s.peeked
    case GiveUp(r) => r in s.peeked
    case Query(r) => r in s.runners && s.runners[r].Querying?
    case Send(r) => r in s.runners && s.runners[r].Sending? && s.runners[r].todo != []
    case SaveOffset(r) => r in s.runners && s.runners[r].Sending? && s.runners[r].todo == []
    case Complete(r) => r in s.runners && s.runners[r].Finishing?
    case Fail(r) => r in s.runners && s.runners[r].Querying?
    case Crash(r) => r in s.runners
  }

  function Apply(listId: nat, s: State, step: Step): State
    requires Enabled(s, step)
  {
    match step
    case Change(table) => s.(table := table)
    case Peek(r) => s.(peeked := s.peeked[r := s.offset])
    case Lock(r) => s.(peeked := s.peeked - {r}, runners := s.runners[r := Querying(s.peeked[r])])
    case Leave(r) => s.(peeked := s.peeked - {r})
    case GiveUp(r) => s.(peeked := s.peeked - {r}, status := Failed)
    case Query(r) =>
      var page := NextPage(s.table, listId, s.runners[r].cursor);
      s.(runners := s.runners[r := Sending(Ids(page.items), {}, page.cursor)])
    case Send(r) =>
      var Sending(todo, done, next) := s.runners[r];
      s.(runners := s.runners[r := Sending(todo[1..], done + {todo[0]}, next)], sent := s.sent + [todo[0]])
    case SaveOffset(r) =>
      var next := s.runners[r].next;
      s.(offset := next, runners := s.runners[r := if next.Some? then Querying(next) else Finishing])
    case Complete(r) => s.(status := Completed, runners := s.runners - {r})
    case Fail(r) => s.(status := Failed, runners := s.runners - {r})
    case Crash(r) =>
      s.(runners := s.runners - {r}, crashes := s.crashes + 1, lateCrash := s.lateCrash || s.runners[r].Finishing?)
  }

  function Run(listId: nat, table: Table, steps: seq<Step>): Option<State> {
    if steps == [] then Some(Begun(table))
    else
      var prefix := Run(listId, table, steps[..|steps| - 1]);
      var step := steps[|steps| - 1];
      if prefix.Some? && Enabled(prefix.value, step) then Some(Apply(listId, prefix.value, step)) else None
  }

  // ---------------------------------------------------------------------------------------------
  // The loops of the service, step by step
  // ---------------------------------------------------------------------------------------------

  /** Extends a run that reached `s` by one step. */
  lemma Extend(listId: nat, table: Table, steps: seq<Step>, s: State, step: Step)
    returns (steps': seq<Step>, s': State)
    requires Run(listId, table, steps) == Some(s) && Enabled(s, step)
    ensures s' == Apply(listId, s, step) && Run(listId, table, steps') == Some(s')
  {
    hide Apply, Enabled;
    steps', s' := steps + [step], Apply(listId, s, step);
    assert steps'[..|steps|] == steps;
  }

  /** What the steps of one runner leave alone. */
  ghost predicate OnlyRunner(s: State, t: State, r: RunnerId) {
    && t.runners - {r} == s.runners - {r} && t.peeked == s.peeked && t.crashes == s.crashes
    && t.lateCrash == s.lateCrash
  }

  /** The sends of a page, one after another. */
  lemma {:induction false} ExtendSends(listId: nat, table: Table, steps: seq<Step>, s: State, r: RunnerId)
    returns (steps': seq<Step>, s': State)
    requires Run(listId, table, steps) == Some(s) && r in s.runners && s.runners[r].Sending?
    ensures Run(listId, table, steps') == Some(s') && OnlyRunner(s, s', r)
    ensures
      var Sending(todo, _, next) := s.runners[r];
      && r in s'.runners && s'.runners[r].Sending? && s'.runners[r].todo == [] && s'.runners[r].next == next
      && s'.sent == s.sent + todo && s'.offset == s.offset && s'.status == s.status
    decreases if r in s.runners && s.runners[r].Sending? then |s.runners[r].todo| else 0
  {
    var todo := s.runners[r].todo;
    if todo == [] {
      steps', s' := steps, s;
      assert s.sent + [] == s.sent;
    } else {
      var mid;
      hide Run;
      steps', mid := Extend(listId, table, steps, s, Send(r));
      assert OnlyRunner(s, mid, r);
      steps', s' := ExtendSends(listId, table, steps', mid, r);
      assert s.sent + [todo[0]] + todo[1..] == s.sent + todo;
    }
  }

  /** One round of the paging loop: the table at that moment, the query, the sends, and the offset that is saved. */
  lemma ExtendPage(listId: nat, table: Table, steps: seq<Step>, s: State, r: RunnerId, now: Table)
    returns (steps': seq<Step>, s': State)
    requires Run(listId, table, steps) == Some(s) && r in s.runners && s.runners[r].Querying?
    ensures Run(listId, table, steps') == Some(s') && OnlyRunner(s, s', r)
    ensures
      var page := NextPage(now, listId, s.runners[r].cursor);
      && s'.sent == s.sent + Ids(page.items) && s'.offset == page.cursor && s'.status == s.status
      && r in s'.runners && s'.runners[r] == if page.cursor.Some? then Querying(page.cursor) else Finishing
  {
    hide Run, NextPage, Ids;
    ghost var before := s;
    steps', s' := Extend(listId, table, steps, s, Change(now));
    steps', s' := Extend(listId, table, steps', s', Query(r));
    assert OnlyRunner(before, s', r);
    steps', s' := ExtendSends(listId, table, steps', s', r);
    steps', s' := Extend(listId, table, steps', s', SaveOffset(r));
  }

  /** From s to t the runner has done what the walk does, and is gone. */
  ghost predicate Follows(s: State, t: State, r: RunnerId, walk: Outcome) {
    && OnlyRunner(s, t, r) && r !in t.runners
    && t.sent == s.sent + walk.sent && t.offset == walk.progress.offset && Some(t.status) == walk.progress.status
  }

  /** A page and a walk behind it. */
  lemma FollowsMore(s: State, mid: State, t: State, r: RunnerId, ids: seq<nat>, rest: Outcome, walk: Outcome)
    requires OnlyRunner(s, mid, r) && mid.sent == s.sent + ids && Follows(mid, t, r, rest)
    requires walk.sent == ids + rest.sent && walk.progress == rest.progress
    ensures Follows(s, t, r, walk)
  {
    assert s.sent + ids + rest.sent == s.sent + (ids + rest.sent);
  }

  /** The last page, and the status after it. */
  lemma ExtendToEnd(listId: nat, table: Table, steps: seq<Step>, s: State, r: RunnerId, now: Table, p: Progress, n: nat)
    returns (steps': seq<Step>, s': State)
    requires Run(listId, table, steps) == Some(s) && r in s.runners && s.runners[r].Querying?
    requires NextPage(now, listId, s.runners[r].cursor).cursor.None?
    ensures Run(listId, table, steps') == Some(s')
    ensures var page := NextPage(now, listId, s.runners[r].cursor);
            Follows(s, s', r, Outcome(Ids(page.items), true, AfterPage(p, page, n).(status := Some(Completed))))
  {
    hide Run, NextPage, Ids;
    steps', s' := ExtendPage(listId, table, steps, s, r, now);
    steps', s' := Extend(listId, table, steps', s', Complete(r));
  }

  lemma ExtendToFailure(listId: nat, table: Table, steps: seq<Step>, s: State, r: RunnerId, p: Progress)
    returns (steps': seq<Step>, s': State)
    requires Run(listId, table, steps) == Some(s) && r in s.runners && s.runners[r].Querying? && p.offset == s.offset
    ensures Run(listId, table, steps') == Some(s') && Follows(s, s', r, Outcome([], false, p.(status := Some(Failed))))
  {
    hide Run;
    steps', s' := Extend(listId, table, steps, s, Fail(r));
    assert s.sent + [] == s.sent;
  }

  /**
  The loop of `executeBroadcast` and `resumeBroadcast`, run without interruption over any tables, is a run of these
  steps: the same sends, and the same offset and status in the progress hash.
  */
  lemma {:induction false} WalkIsRun(
    listId: nat, table: Table, steps: seq<Step>, s: State, r: RunnerId,
    db: Database, k: nat, cursor: Option<nat>, p: Progress, n: nat)
    returns (steps': seq<Step>, s': State)
    requires Run(listId, table, steps) == Some(s) && r in s.runners && s.runners[r] == Querying(cursor)
    requires p.offset == s.offset
    ensures Run(listId, table, steps') == Some(s') && Follows(s, s', r, Walk(db, listId, k, cursor, p, n))
    decreases cursor.None?, if cursor.Some? then cursor.value else 0
  {
    hide *;
    if db(k).None? {
      WalkFails(db, listId, k, cursor, p, n);
      steps', s' := ExtendToFailure(listId, table, steps, s, r, p);
    } else {
      var page := NextPage(db(k).value, listId, cursor);
      var n' := n + |Ids(page.items)|;
      var p' := AfterPage(p, page, n');
      WalkRound(db, listId, k, cursor, p, n);
      if page.cursor.None? {
        steps', s' := ExtendToEnd(listId, table, steps, s, r, db(k).value, p, n');
      } else {
        var mid;
        steps', mid := ExtendPage(listId, table, steps, s, r, db(k).value);
        PageSaves(p, page, n');
        steps', s' := WalkIsRun(listId, table, steps', mid, r, db, k + 1, page.cursor, p', n');
        FollowsMore(s, mid, s', r, Ids(page.items), Walk(db, listId, k + 1, page.cursor, p', n'),
                    Walk(db, listId, k, cursor, p, n));
      }
    }
  }

  /** A broadcast that nothing disturbs is a run from its beginning. */
  lemma ExecuteIsRun(listId: nat, table: Table, db: Database, p: Progress) returns (steps: seq<Step>, s: State)
    requires p.offset == None
    ensures Run(listId, table, steps) == Some(s) && s.runners == map[] && s.crashes == 0
    ensures var walk := Walk(db, listId, 0, None, p, 0);
            s.sent == walk.sent && s.offset == walk.progress.offset && Some(s.status) == walk.progress.status
  {
    hide Walk;
    steps, s := WalkIsRun(listId, table, [], Begun(table), 0, db, 0, None, p, 0);
    assert [] + Walk(db, listId, 0, None, p, 0).sent == Walk(db, listId, 0, None, p, 0).sent;
    assert Begun(table).runners - {0} == map[] && s.runners - {0} == s.runners;
  }

  /** A resume that nothing disturbs goes on from the saved offset, with a read that still holds. */
  lemma ResumeIsRun(
    listId: nat, table: Table, steps: seq<Step>, s: State, r: RunnerId, db: Database, p: Progress, n: nat)
    returns (steps': seq<Step>, s': State)
    requires Run(listId, table, steps) == Some(s) && s.runners == map[] && r !in s.peeked && s.status == Running
    requires p.offset == s.offset
    ensures var peeked := Apply(listId, s, Peek(r));
            Enabled(peeked, Lock(r)) && LockHeld(peeked, Lock(r)) && ReadHolds(peeked, Lock(r))
    ensures Run(listId, table, steps') == Some(s') && s'.runners == map[] && s'.crashes == s.crashes
    ensures var walk := Walk(db, listId, 0, s.offset, p, n);
            && s'.sent == s.sent + walk.sent && s'.offset == walk.progress.offset
            && Some(s'.status) == walk.progress.status
  {
    hide Walk, Run;
    var mid;
    steps', mid := Extend(listId, table, steps, s, Peek(r));
    steps', mid := Extend(listId, table, steps', mid, Lock(r));
    assert mid.runners == map[r := Querying(s.offset)];
    steps', s' := WalkIsRun(listId, table, steps', mid, r, db, 0, s.offset, p, n);
    assert mid.runners - {r} == map[] && s'.runners - {r} == s'.runners;
  }

  /** A resume that finds no list, or an incomplete hash, writes "failed" and sends nothing. */
  lemma ResumeGivesUp(listId: nat, s: State, r: RunnerId)
    requires Enabled(s, Peek(r))
    ensures var peeked := Apply(listId, s, Peek(r));
            && Enabled(peeked, GiveUp(r)) && Enabled(peeked, Leave(r))
            && Apply(listId, peeked, GiveUp(r)) == s.(status := Failed)
            && Apply(listId, peeked, Leave(r)) == s
  {
    assert s.peeked[r := s.offset] - {r} == s.peeked;
  }

  // ---------------------------------------------------------------------------------------------
  // Nobody is missed
  // ---------------------------------------------------------------------------------------------

  /** The table holds the member, confirmed, and no other confirmed member of its millisecond. */
  ghost predicate Steady(table: Table, listId: nat, m: Row) {
    && UniqueIds(table) && m in table && m.listId == listId && m.status == Confirmed
    && AloneInItsMillisecond(table, listId, m)
  }

  ghost predicate SteadyThroughout(table: Table, steps: seq<Step>, listId: nat, m: Row) {
    && Steady(table, listId, m)
    && forall i | 0 <= i < |steps| && steps[i].Change? :: Steady(steps[i].table, listId, m)
  }

  /** A cursor at or below the member's millisecond is only ever written once the member has been sent to. */
  ghost predicate Passed(s: State, cursor: Option<nat>, m: Row) {
    Before(m.createdAt, cursor) || m.id in s.sent
  }

  ghost predicate RunnerCovers(s: State, runner: Runner, m: Row) {
    match runner
    case Querying(cursor) => Passed(s, cursor, m)
    case Sending(todo, _, next) => m.id in todo || m.id in s.sent || (next.Some? && Before(m.createdAt, next))
    case Finishing => m.id in s.sent
  }

  ghost predicate Covers(listId: nat, s: State, m: Row) {
    && Steady(s.table, listId, m)
    && Passed(s, s.offset, m) && (forall r <- s.peeked :: Passed(s, s.peeked[r], m))
    && (forall r <- s.runners :: RunnerCovers(s, s.runners[r], m))
    && (s.status == Completed ==> m.id in s.sent)
  }

  lemma QueryCovers(table: Table, listId: nat, cursor: Option<nat>, m: Row)
    requires Steady(table, listId, m)
    ensures var page := NextPage(table, listId, cursor);
            Before(m.createdAt, cursor) ==>
              m.id in Ids(page.items) || (page.cursor.Some? && Before(m.createdAt, page.cursor))
  {
    if Before(m.createdAt, cursor) {
      PageReaches(table, listId, cursor, m);
    }
  }

  lemma StepCovers(listId: nat, s: State, step: Step, m: Row)
    requires Covers(listId, s, m) && Enabled(s, step)
    requires step.Change? ==> Steady(step.table, listId, m)
    ensures Covers(listId, Apply(listId, s, step), m)
  {
    hide NextPage, Ids, Steady;
    if step.Query? {
      QueryCovers(s.table, listId, s.runners[step.r].cursor, m);
    } else if step.Send? {
      var todo := s.runners[step.r].todo;
      assert todo == [todo[0]] + todo[1..];
    }
  }

  lemma {:induction false} RunCovers(listId: nat, table: Table, steps: seq<Step>, m: Row)
    requires Run(listId, table, steps).Some? && SteadyThroughout(table, steps, listId, m)
    ensures Covers(listId, Run(listId, table, steps).value, m)
  {
    if steps != [] {
      RunCovers(listId, table, steps[..|steps| - 1], m);
      StepCovers(listId, Run(listId, table, steps[..|steps| - 1]).value, steps[|steps| - 1], m);
    }
  }

  /**
  After any crashes and resumes, of any number of runners at once, a broadcast whose status is "completed" has sent
  to every member that was confirmed throughout and alone in its millisecond.
  */
  lemma CompletedReachesEveryone(listId: nat, table: Table, steps: seq<Step>, m: Row)
    requires Run(listId, table, steps).Some? && SteadyThroughout(table, steps, listId, m)
    requires Run(listId, table, steps).value.status == Completed
    ensures m.id in Run(listId, table, steps).value.sent
  {
    RunCovers(listId, table, steps, m);
  }

  // ---------------------------------------------------------------------------------------------
  // How much a crash repeats
  // ---------------------------------------------------------------------------------------------

  /** The number of sends to a member already sent to. */
  function Repeats(sent: seq<nat>): nat {
    if sent == [] then 0
    else
      var front, last := sent[..|sent| - 1], sent[|sent| - 1];
      Repeats(front) + if last in front then 1 else 0
  }

  /** Members sent to that a run from `offset` may reach again. */
  ghost function Exposed(sent: seq<nat>, birth: nat -> nat, offset: Option<nat>): set<nat> {
    set x | x in sent && Before(birth(x), offset)
  }

  ghost predicate Lone(s: State) {
    forall i <- s.runners, j <- s.runners :: i == j
  }

  /** The lock does its work: nobody gets it while a runner is alive. */
  ghost predicate LockHeld(s: State, step: Step) {
    step.Lock? ==> s.runners == map[]
  }

  /** What a resume read before it got the lock still holds: no other runner has come between. */
  ghost predicate ReadHolds(s: State, step: Step) {
    step.Lock? && step.r in s.peeked ==> s.peeked[step.r] == s.offset && s.status == Running
  }

  /** The part of a page still to send, and the part sent since the last offset write. */
  ghost predicate PageOf(
    sent: seq<nat>, birth: nat -> nat, offset: Option<nat>, todo: seq<nat>, done: set<nat>, next: Option<nat>)
  {
    && Distinct(todo) && (forall x <- todo :: x !in done) && |done| + |todo| <= BATCH_SIZE
    && (forall x <- done :: x in sent)
    && (forall x | x in todo || x in done :: Before(birth(x), offset))
    && (next.Some? ==> forall x | x in todo || x in done :: !Before(birth(x), next))
    && (next.Some? && offset.Some? ==> next.value < offset.value)
  }

  /** Repeats so far, and repeats still possible less those the current page has already made. */
  ghost predicate Budget(sent: seq<nat>, birth: nat -> nat, offset: Option<nat>, done: set<nat>, crashes: nat) {
    Repeats(sent) + |Exposed(sent, birth, offset) - done| <= BATCH_SIZE * crashes
  }

  ghost predicate RunnerWithin(s: State, birth: nat -> nat, runner: Runner) {
    match runner
    case Querying(cursor) => cursor == s.offset && Budget(s.sent, birth, s.offset, {}, s.crashes)
    case Sending(todo, done, next) =>
      PageOf(s.sent, birth, s.offset, todo, done, next) && Budget(s.sent, birth, s.offset, done, s.crashes)
    case Finishing => true
  }

  ghost predicate Within(s: State, birth: nat -> nat) {
    && Consistent(s.table, birth) && Lone(s)
    && (s.lateCrash ||
          (Repeats(s.sent) <= BATCH_SIZE * s.crashes
           && (forall r <- s.runners :: RunnerWithin(s, birth, s.runners[r]))
           && (s.runners == map[] && s.status == Running ==> Budget(s.sent, birth, s.offset, {}, s.crashes))))
  }

  lemma QueryWithin(table: Table, sent: seq<nat>, birth: nat -> nat, listId: nat, offset: Option<nat>)
    requires Consistent(table, birth)
    ensures var page := NextPage(table, listId, offset); PageOf(sent, birth, offset, Ids(page.items), {}, page.cursor)
  {
    PageIds(table, birth, listId, offset);
    PageHolds(table, listId, offset, Some(BATCH_SIZE));
    PageAdvances(table, listId, offset);
  }

  lemma SendWithin(
    sent: seq<nat>, birth: nat -> nat, offset: Option<nat>, todo: seq<nat>, done: set<nat>, next: Option<nat>,
    crashes: nat)
    requires PageOf(sent, birth, offset, todo, done, next) && Budget(sent, birth, offset, done, crashes) && todo != []
    ensures var sent' := sent + [todo[0]];
            && PageOf(sent', birth, offset, todo[1..], done + {todo[0]}, next)
            && Budget(sent', birth, offset, done + {todo[0]}, crashes) && Repeats(sent') <= BATCH_SIZE * crashes
  {
    var x := todo[0];
    var sent' := sent + [x];
    assert sent'[..|sent|] == sent;
    var before := Exposed(sent, birth, offset) - done;
    assert Exposed(sent', birth, offset) - (done + {x}) == before - {x};
    assert x in sent ==> x in before;
  }

  lemma SaveWithin(
    sent: seq<nat>, birth: nat -> nat, offset: Option<nat>, done: set<nat>, next: Option<nat>, crashes: nat)
    requires PageOf(sent, birth, offset, [], done, next) && Budget(sent, birth, offset, done, crashes)
    ensures next.Some? ==> Budget(sent, birth, next, {}, crashes)
  {
    if next.Some? {
      var before := Exposed(sent, birth, offset) - done;
      var after := Exposed(sent, birth, next) - {};
      assert before == after + (before - after);
    }
  }

  lemma CrashWithin(
    sent: seq<nat>, birth: nat -> nat, offset: Option<nat>, todo: seq<nat>, done: set<nat>, next: Option<nat>,
    crashes: nat)
    requires PageOf(sent, birth, offset, todo, done, next) && Budget(sent, birth, offset, done, crashes)
    ensures Budget(sent, birth, offset, {}, crashes + 1)
  {
    var exposed := Exposed(sent, birth, offset);
    assert exposed - {} == exposed;
    assert (exposed - done) + done == exposed + (done - exposed);
    assert |(exposed - done) + done| <= |exposed - done| + |done|;
  }

  lemma BudgetGrows(sent: seq<nat>, birth: nat -> nat, offset: Option<nat>, crashes: nat)
    requires Budget(sent, birth, offset, {}, crashes)
    ensures Budget(sent, birth, offset, {}, crashes + 1)
  {
  }

  lemma StepWithin(listId: nat, birth: nat -> nat, s: State, step: Step)
    requires Within(s, birth) && Enabled(s, step) && LockHeld(s, step) && ReadHolds(s, step)
    requires step.Change? ==> Consistent(step.table, birth)
    ensures Within(Apply(listId, s, step), birth)
  {
    hide NextPage, Ids, Consistent, PageOf, Budget, Repeats;
    var t := Apply(listId, s, step);
    match step
    case Query(r) => QueryWithin(s.table, s.sent, birth, listId, s.offset);
    case Send(r) =>
      var Sending(todo, done, next) := s.runners[r];
      if !s.lateCrash {
        SendWithin(s.sent, birth, s.offset, todo, done, next, s.crashes);
        assert RunnerWithin(t, birth, t.runners[r]) && forall i <- t.runners :: i == r;
      }
    case SaveOffset(r) =>
      if !s.lateCrash {
        SaveWithin(s.sent, birth, s.offset, s.runners[r].done, s.runners[r].next, s.crashes);
        assert RunnerWithin(t, birth, t.runners[r]) && forall i <- t.runners :: i == r;
      }
    case Crash(r) =>
      if !s.lateCrash && s.runners[r].Sending? {
        var Sending(todo, done, next) := s.runners[r];
        CrashWithin(s.sent, birth, s.offset, todo, done, next, s.crashes);
      } else if !s.lateCrash && s.runners[r].Querying? {
        BudgetGrows(s.sent, birth, s.offset, s.crashes);
      }
    case _ =>
  }

  ghost predicate Exclusive(listId: nat, table: Table, steps: seq<Step>, birth: nat -> nat) {
    && Consistent(table, birth)
    && (forall i | 0 <= i < |steps| && steps[i].Change? :: Consistent(steps[i].table, birth))
    && (forall i | 0 <= i < |steps| && Run(listId, table, steps[..i]).Some? ::
          var s := Run(listId, table, steps[..i]).value; LockHeld(s, steps[i]) && ReadHolds(s, steps[i]))
  }

  lemma {:induction false} RunWithin(listId: nat, table: Table, steps: seq<Step>, birth: nat -> nat)
    requires Run(listId, table, steps).Some? && Exclusive(listId, table, steps, birth)
    ensures Within(Run(listId, table, steps).value, birth)
  {
    if steps == [] {
      assert Exposed([], birth, None) - {} == {};
    } else {
      var n := |steps| - 1;
      assert forall i | 0 <= i < n :: steps[..n][..i] == steps[..i];
      RunWithin(listId, table, steps[..n], birth);
      StepWithin(listId, birth, Run(listId, table, steps[..n]).value, steps[n]);
    }
  }

  /**
  With the lock held, and no resume from a stale read, each crash before the final offset write repeats at most one page
  of sends: over any run without a later crash, at most 100 sends per crash go to a member already sent to, whatever the
  table does.
  */
  lemma CrashesRepeatOnePageEach(listId: nat, table: Table, steps: seq<Step>, birth: nat -> nat)
    requires Run(listId, table, steps).Some? && Exclusive(listId, table, steps, birth)
    requires !Run(listId, table, steps).value.lateCrash
    ensures var s := Run(listId, table, steps).value; Repeats(s.sent) <= 100 * s.crashes
  {
    RunWithin(listId, table, steps, birth);
  }

  /**
  A crash after the final page is different: the saved offset is the empty string again, so the next runner starts
  over and its first page is that of a new broadcast.
  */
  lemma LateCrashStartsOver(listId: nat, s: State, r: RunnerId, r': RunnerId)
    requires Enabled(s, SaveOffset(r)) && s.runners[r].next == None && s.status == Running
    requires r' !in s.runners && r' !in s.peeked
    ensures
      var crashed := Apply(listId, Apply(listId, s, SaveOffset(r)), Crash(r));
      var again := Apply(listId, Apply(listId, Apply(listId, crashed, Peek(r')), Lock(r')), Query(r'));
      && crashed.lateCrash
      && var page := NextPage(s.table, listId, None);
      again.runners[r'] == Sending(Ids(page.items), {}, page.cursor)
  {
    hide NextPage, Ids;
  }
}
