/**
When each crash of a broadcast repeats at most one page, exactly: over all runs of an unchanging list in which the lock
keeps a second runner out, crashes between the last offset write and "completed" included; with and without resumes that
read the progress hash before another runner was done.
*/
module LateCrashes {
  import opened MemberStatus
  import opened Options
  import opened Sets
  import opened Sorting
  import opened MemberPages
  import opened Broadcast
  import opened BroadcastRuns

  /** Nothing changes the table, the lock keeps a second runner out, and stale reads come only if allowed. */
  ghost predicate Calm(s: State, step: Step, stale: bool) {
    !step.Change? && LockHeld(s, step) && (stale || ReadHolds(s, step))
  }

  ghost predicate Quiet(listId: nat, table: Table, steps: seq<Step>, stale: bool) {
    steps != [] ==>
      var front, last := steps[..|steps| - 1], steps[|steps| - 1];
      && Quiet(listId, table, front, stale)
      && (Run(listId, table, front).Some? ==> Calm(Run(listId, table, front).value, last, stale))
  }

  /** Over all such runs, at most 100 sends per crash go to a member already sent to. */
  ghost predicate OnePagePerCrash(listId: nat, table: Table, stale: bool) {
    forall steps | Quiet(listId, table, steps, stale) && Run(listId, table, steps).Some? ::
      var s := Run(listId, table, steps).value; Repeats(s.sent) <= 100 * s.crashes
  }

  predicate IsMember(r: Row, listId: nat) {
    r.listId == listId && r.status == Confirmed
  }

  /** The confirmed members of the list. */
  function Members(table: Table, listId: nat): set<nat> {
    set r | r in table && IsMember(r, listId) :: r.id
  }

  ghost predicate DistinctMilliseconds(table: Table, listId: nat) {
    forall r <- table | IsMember(r, listId) :: AloneInItsMillisecond(table, listId, r)
  }

  function SetOf(ids: seq<nat>): set<nat> {
    set x <- ids
  }

  lemma {:induction false} RepeatsCount(sent: seq<nat>)
    ensures Repeats(sent) + |SetOf(sent)| == |sent|
  {
    if sent != [] {
      var front, last := sent[..|sent| - 1], sent[|sent| - 1];
      RepeatsCount(front);
      assert sent == front + [last];
      assert SetOf(sent) == SetOf(front) + {last};
    }
  }

  lemma {:induction false} DistinctSet(ids: seq<nat>)
    requires Distinct(ids)
    ensures |SetOf(ids)| == |ids|
  {
    if ids != [] {
      var n := |ids| - 1;
      DistinctSet(ids[..n]);
      assert ids == ids[..n] + [ids[n]];
      assert SetOf(ids) == SetOf(ids[..n]) + {ids[n]};
    }
  }

  lemma {:induction false} SetIsNoLarger(ids: seq<nat>)
    ensures |SetOf(ids)| <= |ids|
  {
    RepeatsCount(ids);
  }

  // ---------------------------------------------------------------------------------------------
  // Lists of one page
  // ---------------------------------------------------------------------------------------------

  lemma OrderedAreMembers(table: Table, listId: nat)
    requires UniqueIds(table)
    ensures |Ordered(table, listId, None)| <= |Members(table, listId)|
  {
    var all := Ordered(table, listId, None);
    var ids := Ids(all);
    OrderedIsWaiting(table, listId, None);
    forall i, j | 0 <= i < j < |ids| ensures ids[i] != ids[j] {
      OrderedIsUnique(table, listId, None, i, j);
    }
    DistinctSet(ids);
    forall x <- ids ensures x in Members(table, listId) {
      var i :| 0 <= i < |all| && ids[i] == x;
      assert Waiting(all[i], table, listId, None);
    }
    Subset(SetOf(ids), Members(table, listId));
  }

  /** The first page of a list of at most a hundred is its last. */
  lemma OnePage(table: Table, listId: nat)
    requires UniqueIds(table) && |Members(table, listId)| <= 100
    ensures NextPage(table, listId, None).cursor == None
  {
    OrderedAreMembers(table, listId);
  }

  lemma PageMembers(table: Table, listId: nat, cursor: Option<nat>)
    requires UniqueIds(table)
    ensures var ids := Ids(NextPage(table, listId, cursor).items);
            Distinct(ids) && |ids| <= 100 && forall x <- ids :: x in Members(table, listId)
  {
    var items := NextPage(table, listId, cursor).items;
    PageHolds(table, listId, cursor, Some(BATCH_SIZE));
    forall x <- Ids(items) ensures x in Members(table, listId) {
      var i :| 0 <= i < |items| && Ids(items)[i] == x;
      assert Waiting(items[i], table, listId, cursor);
    }
    hide ListByList;
  }

  /** Repeats so far, and those still possible less those already made by the current page. */
  ghost predicate Allowance(sent: seq<nat>, done: set<nat>, crashes: nat) {
    Repeats(sent) + |SetOf(sent) - done| <= 100 * crashes
  }

  ghost predicate OneOf(members: set<nat>, todo: seq<nat>, done: set<nat>) {
    && Distinct(todo) && (forall x <- todo :: x !in done && x in members)
    && done <= members
  }

  ghost predicate RunnerInOnePage(s: State, members: set<nat>, runner: Runner) {
    match runner
    case Querying(cursor) => cursor == None && Allowance(s.sent, {}, s.crashes)
    case Sending(todo, done, next) => next == None && OneOf(members, todo, done) && Allowance(s.sent, done, s.crashes)
    case Finishing => true
  }

  ghost predicate InOnePage(listId: nat, table: Table, s: State) {
    && s.table == table && s.offset == None && Lone(s)
    && SetOf(s.sent) <= Members(table, listId) && Repeats(s.sent) <= 100 * s.crashes
    && (forall r <- s.runners :: RunnerInOnePage(s, Members(table, listId), s.runners[r]))
    && (s.runners == map[] && s.status == Running ==> Allowance(s.sent, {}, s.crashes))
  }

  lemma SendInOnePage(sent: seq<nat>, members: set<nat>, todo: seq<nat>, done: set<nat>, crashes: nat)
    requires OneOf(members, todo, done) && Allowance(sent, done, crashes) && todo != [] && SetOf(sent) <= members
    ensures var sent' := sent + [todo[0]];
            && OneOf(members, todo[1..], done + {todo[0]}) && Allowance(sent', done + {todo[0]}, crashes)
            && SetOf(sent') <= members && Repeats(sent') <= 100 * crashes
  {
    var x := todo[0];
    var sent' := sent + [x];
    assert sent'[..|sent|] == sent;
    var before := SetOf(sent) - done;
    assert SetOf(sent') == SetOf(sent) + {x};
    assert SetOf(sent') - (done + {x}) == before - {x};
    assert x in sent ==> x in before;
  }

  lemma LateCrashInOnePage(sent: seq<nat>, members: set<nat>, crashes: nat)
    requires |members| <= 100 && SetOf(sent) <= members && Repeats(sent) <= 100 * crashes
    ensures Allowance(sent, {}, crashes + 1)
  {
    Subset(SetOf(sent) - {}, members);
  }

  lemma StepInOnePage(listId: nat, table: Table, s: State, step: Step)
    requires UniqueIds(table) && |Members(table, listId)| <= 100
    requires InOnePage(listId, table, s) && Enabled(s, step) && Calm(s, step, false)
    ensures InOnePage(listId, table, Apply(listId, s, step))
  {
    hide NextPage, Ids, Members, OneOf, Allowance, Repeats, SetOf, UniqueIds;
    var t := Apply(listId, s, step);
    var members := Members(table, listId);
    match step
    case Query(r) =>
      OnePage(table, listId);
      PageMembers(table, listId, None);
      FreshPage(members, Ids(NextPage(table, listId, None).items));
      assert RunnerInOnePage(t, members, t.runners[r]) && forall i <- t.runners :: i == r;
    case Send(r) =>
      var Sending(todo, done, next) := s.runners[r];
      SendInOnePage(s.sent, members, todo, done, s.crashes);
      assert RunnerInOnePage(t, members, t.runners[r]) && forall i <- t.runners :: i == r;
    case Crash(r) =>
      LateCrashInOnePage(s.sent, members, s.crashes);
      assert t.runners == map[];
    case _ =>
  }

  lemma FreshPage(members: set<nat>, ids: seq<nat>)
    requires Distinct(ids) && forall x <- ids :: x in members
    ensures OneOf(members, ids, {})
  {
  }

  lemma NothingSent()
    ensures Allowance([], {}, 0) && SetOf([]) == {} && Repeats([]) == 0
  {
    assert SetOf([]) - {} == {};
  }

  lemma {:induction false} RunInOnePage(listId: nat, table: Table, steps: seq<Step>)
    requires UniqueIds(table) && |Members(table, listId)| <= 100
    requires Quiet(listId, table, steps, false) && Run(listId, table, steps).Some?
    ensures InOnePage(listId, table, Run(listId, table, steps).value)
  {
    if steps == [] {
      NothingSent();
    } else {
      hide InOnePage, Enabled, Calm, Apply, UniqueIds, Members;
      RunInOnePage(listId, table, steps[..|steps| - 1]);
      StepInOnePage(listId, table, Run(listId, table, steps[..|steps| - 1]).value, steps[|steps| - 1]);
    }
  }

  // ---------------------------------------------------------------------------------------------
  // Longer lists
  // ---------------------------------------------------------------------------------------------

  /** A run so far, over the unchanging table. */
  ghost predicate Reached(listId: nat, table: Table, steps: seq<Step>, s: State, stale: bool) {
    Quiet(listId, table, steps, stale) && Run(listId, table, steps) == Some(s) && s.table == table
  }

  lemma TableStays(listId: nat, s: State, step: Step)
    requires Enabled(s, step) && !step.Change?
    ensures Apply(listId, s, step).table == s.table
  {
    hide NextPage, Ids;
  }

  lemma Go(listId: nat, table: Table, steps: seq<Step>, s: State, step: Step, stale: bool)
    returns (steps': seq<Step>, s': State)
    requires Reached(listId, table, steps, s, stale) && Enabled(s, step) && Calm(s, step, stale)
    ensures s' == Apply(listId, s, step) && Reached(listId, table, steps', s', stale)
  {
    TableStays(listId, s, step);
    hide Apply, Enabled, LockHeld, ReadHolds;
    steps', s' := steps + [step], Apply(listId, s, step);
    assert steps'[..|steps|] == steps;
  }

  lemma GoQuery(listId: nat, table: Table, steps: seq<Step>, s: State, r: RunnerId, stale: bool)
    returns (steps': seq<Step>, s': State)
    requires Reached(listId, table, steps, s, stale) && r in s.runners && s.runners[r].Querying?
    ensures Reached(listId, table, steps', s', stale)
    ensures var page := NextPage(table, listId, s.runners[r].cursor);
            s' == s.(runners := s.runners[r := Sending(Ids(page.items), {}, page.cursor)])
  {
    hide NextPage, Ids;
    steps', s' := Go(listId, table, steps, s, Query(r), stale);
  }

  lemma GoSave(listId: nat, table: Table, steps: seq<Step>, s: State, r: RunnerId, stale: bool)
    returns (steps': seq<Step>, s': State)
    requires Reached(listId, table, steps, s, stale)
    requires r in s.runners && s.runners[r].Sending? && s.runners[r].todo == []
    ensures Reached(listId, table, steps', s', stale)
    ensures var next := s.runners[r].next;
            s' == s.(offset := next, runners := s.runners[r := if next.Some? then Querying(next) else Finishing])
  {
    steps', s' := Go(listId, table, steps, s, SaveOffset(r), stale);
  }

  /** The rest of a page, sent. */
  lemma {:induction false} GoSendAll(listId: nat, table: Table, steps: seq<Step>, s: State, r: RunnerId, stale: bool)
    returns (steps': seq<Step>, s': State)
    requires Reached(listId, table, steps, s, stale) && r in s.runners && s.runners[r].Sending?
    ensures Reached(listId, table, steps', s', stale)
    ensures var Sending(todo, _, next) := s.runners[r];
            && r in s'.runners && s'.runners[r].Sending? && s'.runners[r].todo == [] && s'.runners[r].next == next
            && s' == s.(runners := s.runners[r := s'.runners[r]], sent := s.sent + todo)
    decreases if r in s.runners && s.runners[r].Sending? then |s.runners[r].todo| else 0
  {
    var Sending(todo, done, next) := s.runners[r];
    if todo == [] {
      steps', s' := steps, s;
      assert s.runners == s.runners[r := s.runners[r]] && s.sent + [] == s.sent;
    } else {
      var mid;
      steps', mid := Go(listId, table, steps, s, Send(r), stale);
      steps', s' := GoSendAll(listId, table, steps', mid, r, stale);
      assert s.sent + [todo[0]] + todo[1..] == s.sent + todo;
      assert s.runners[r := mid.runners[r]][r := s'.runners[r]] == s.runners[r := s'.runners[r]];
    }
  }

  /** The members before the cursor. */
  ghost predicate CoversFrom(table: Table, listId: nat, cursor: Option<nat>, extra: seq<nat>) {
    && (forall x <- extra :: x in Members(table, listId))
    && (forall m <- table | IsMember(m, listId) && Before(m.createdAt, cursor) :: m.id in extra)
  }

  /** One page and what is covered from the next one on. */
  lemma PageCovers(table: Table, listId: nat, cursor: Option<nat>, extra: seq<nat>)
    requires UniqueIds(table) && DistinctMilliseconds(table, listId)
    requires var page := NextPage(table, listId, cursor);
             if page.cursor.Some? then CoversFrom(table, listId, page.cursor, extra) else extra == []
    ensures CoversFrom(table, listId, cursor, Ids(NextPage(table, listId, cursor).items) + extra)
  {
    var page := NextPage(table, listId, cursor);
    PageMembers(table, listId, cursor);
    forall m <- table | IsMember(m, listId) && Before(m.createdAt, cursor) ensures m.id in Ids(page.items) + extra {
      PageCoversOne(table, listId, cursor, m);
    }
    hide NextPage, Ids, UniqueIds, DistinctMilliseconds, IsMember, Before;
  }

  lemma PageCoversOne(table: Table, listId: nat, cursor: Option<nat>, m: Row)
    requires UniqueIds(table) && DistinctMilliseconds(table, listId)
    requires m in table && IsMember(m, listId) && Before(m.createdAt, cursor)
    ensures var page := NextPage(table, listId, cursor);
            m.id in Ids(page.items) || (page.cursor.Some? && Before(m.createdAt, page.cursor))
  {
    assert AloneInItsMillisecond(table, listId, m);
    QueryCovers(table, listId, cursor, m);
  }

  /** A whole pass: every member before the cursor is sent to, whoever was sent to already. */
  lemma {:induction false} GoPass(
    listId: nat, table: Table, steps: seq<Step>, s: State, r: RunnerId, cursor: Option<nat>,
    stale: bool)
    returns (steps': seq<Step>, s': State, extra: seq<nat>)
    requires UniqueIds(table) && DistinctMilliseconds(table, listId)
    requires Reached(listId, table, steps, s, stale) && r in s.runners && s.runners[r] == Querying(cursor)
    ensures Reached(listId, table, steps', s', stale) && CoversFrom(table, listId, cursor, extra)
    ensures s' == s.(offset := None, runners := s.runners[r := Finishing], sent := s.sent + extra)
    decreases cursor.None?, if cursor.Some? then cursor.value else 0
  {
    var page := NextPage(table, listId, cursor);
    PageAdvances(table, listId, cursor);
    hide NextPage, Ids, UniqueIds, DistinctMilliseconds, Reached, CoversFrom;
    var ids := Ids(page.items);
    var s1, s2, s3;
    steps', s1 := GoQuery(listId, table, steps, s, r, stale);
    steps', s2 := GoSendAll(listId, table, steps', s1, r, stale);
    steps', s3 := GoSave(listId, table, steps', s2, r, stale);
    assert s3 == s.(offset := page.cursor, sent := s.sent + ids,
                    runners := s.runners[r := if page.cursor.Some? then Querying(page.cursor) else Finishing]);
    if page.cursor.None? {
      PageCovers(table, listId, cursor, []);
      s', extra := s3, ids;
      assert ids + [] == ids;
    } else {
      var rest;
      steps', s', rest := GoPass(listId, table, steps', s3, r, page.cursor, stale);
      extra := ids + rest;
      PageCovers(table, listId, cursor, rest);
      assert s.sent + ids + rest == s.sent + (ids + rest);
      assert s.runners[r := Querying(page.cursor)][r := Finishing] == s.runners[r := Finishing];
    }
  }

  lemma PassIsLong(table: Table, listId: nat, extra: seq<nat>)
    requires CoversFrom(table, listId, None, extra)
    ensures SetOf(extra) == Members(table, listId) && |extra| >= |Members(table, listId)|
  {
    forall x <- Members(table, listId) ensures x in extra {
      var m :| m in table && IsMember(m, listId) && m.id == x;
    }
    assert SetOf(extra) == Members(table, listId);
    SetIsNoLarger(extra);
  }

  lemma TwoPassesRepeat(table: Table, listId: nat, first: seq<nat>, second: seq<nat>)
    requires CoversFrom(table, listId, None, first) && CoversFrom(table, listId, None, second)
    ensures Repeats(first + second) >= |Members(table, listId)|
  {
    PassIsLong(table, listId, first);
    PassIsLong(table, listId, second);
    RepeatsCount(first + second);
    var members := Members(table, listId);
    assert SetOf(first + second) == SetOf(first) + SetOf(second) == members;
    assert |first + second| == |first| + |second|;
  }

  lemma AtTheBeginning(listId: nat, table: Table, stale: bool)
    ensures Reached(listId, table, [], Begun(table), stale)
  {
  }

  /**
  A pass over the whole list, a crash just before "completed", and another pass: everyone is sent to twice after one
  crash.
  */
  lemma LateCrashRepeatsAll(listId: nat, table: Table) returns (steps: seq<Step>, s: State)
    requires UniqueIds(table) && DistinctMilliseconds(table, listId)
    ensures Reached(listId, table, steps, s, false) && s.crashes == 1 && Repeats(s.sent) >= |Members(table, listId)|
  {
    hide Reached, CoversFrom, UniqueIds, DistinctMilliseconds, Repeats, Members;
    AtTheBeginning(listId, table, false);
    var first, second;
    steps, s, first := GoPass(listId, table, [], Begun(table), 0, None, false);
    assert s.runners == map[0 := Finishing];
    steps, s := Go(listId, table, steps, s, Crash(0), false);
    assert s.runners == map[];
    steps, s := Go(listId, table, steps, s, Peek(1), false);
    steps, s := Go(listId, table, steps, s, Lock(1), false);
    steps, s, second := GoPass(listId, table, steps, s, 1, None, false);
    assert s.sent == first + second;
    TwoPassesRepeat(table, listId, first, second);
  }

  /**
  A resume that reads the progress hash while the broadcast is running and gets the lock when it is done: everyone is
  sent to twice, with no crash at all and with the lock held throughout.
  */
  lemma StaleReadRepeatsAll(listId: nat, table: Table) returns (steps: seq<Step>, s: State)
    requires UniqueIds(table) && DistinctMilliseconds(table, listId)
    ensures Reached(listId, table, steps, s, true) && s.crashes == 0 && Repeats(s.sent) >= |Members(table, listId)|
  {
    hide Reached, CoversFrom, UniqueIds, DistinctMilliseconds, Repeats, Members;
    AtTheBeginning(listId, table, true);
    var first, second;
    steps, s := Go(listId, table, [], Begun(table), Peek(1), true);
    steps, s, first := GoPass(listId, table, steps, s, 0, None, true);
    assert s.runners == map[0 := Finishing];
    steps, s := Go(listId, table, steps, s, Complete(0), true);
    assert s.runners == map[];
    steps, s := Go(listId, table, steps, s, Lock(1), true);
    steps, s, second := GoPass(listId, table, steps, s, 1, None, true);
    assert s.sent == first + second;
    TwoPassesRepeat(table, listId, first, second);
  }

  /**
  Late crashes included, each crash repeats at most one page of sends, over all runs of an unchanging list whose members
  were created in different milliseconds and in which no resume acts on a stale read, exactly when the list has at most
  a hundred members.
  */
  lemma OnePagePerCrashExact(listId: nat, table: Table)
    requires UniqueIds(table) && DistinctMilliseconds(table, listId)
    ensures OnePagePerCrash(listId, table, false) <==> |Members(table, listId)| <= 100
  {
    hide Members, UniqueIds, DistinctMilliseconds, Repeats, Quiet, Run;
    if |Members(table, listId)| <= 100 {
      forall steps | Quiet(listId, table, steps, false) && Run(listId, table, steps).Some?
        ensures var s := Run(listId, table, steps).value; Repeats(s.sent) <= 100 * s.crashes
      {
        RunInOnePage(listId, table, steps);
      }
    } else {
      var steps, s := LateCrashRepeatsAll(listId, table);
      assert Quiet(listId, table, steps, false) && Run(listId, table, steps).Some?;
    }
  }

  lemma EmptyPage(table: Table, listId: nat, cursor: Option<nat>)
    requires UniqueIds(table) && Members(table, listId) == {}
    ensures Ids(NextPage(table, listId, cursor).items) == []
  {
    PageMembers(table, listId, cursor);
    var ids := Ids(NextPage(table, listId, cursor).items);
    DistinctSet(ids);
    assert SetOf(ids) <= {};
  }

  ghost predicate NobodyToSendTo(table: Table, s: State) {
    s.table == table && s.sent == [] && forall r <- s.runners :: s.runners[r].Sending? ==> s.runners[r].todo == []
  }

  lemma {:induction false} EmptyListSendsNothing(listId: nat, table: Table, steps: seq<Step>)
    requires UniqueIds(table) && Members(table, listId) == {}
    requires Quiet(listId, table, steps, true) && Run(listId, table, steps).Some?
    ensures NobodyToSendTo(table, Run(listId, table, steps).value)
  {
    if steps != [] {
      var front, last := steps[..|steps| - 1], steps[|steps| - 1];
      EmptyListSendsNothing(listId, table, front);
      hide NextPage, Ids, Members, UniqueIds;
      if last.Query? {
        var cursor := Run(listId, table, front).value.runners[last.r].cursor;
        EmptyPage(table, listId, cursor);
      }
    }
  }

  /** With stale reads, over the same runs, the lock alone keeps that bound exactly when there is nobody to send to. */
  lemma LockAloneExact(listId: nat, table: Table)
    requires UniqueIds(table) && DistinctMilliseconds(table, listId)
    ensures OnePagePerCrash(listId, table, true) <==> Members(table, listId) == {}
  {
    hide Members, UniqueIds, DistinctMilliseconds, Repeats, Quiet, Run;
    if Members(table, listId) == {} {
      forall steps | Quiet(listId, table, steps, true) && Run(listId, table, steps).Some?
        ensures var s := Run(listId, table, steps).value; Repeats(s.sent) <= 100 * s.crashes
      {
        EmptyListSendsNothing(listId, table, steps);
        NothingSent();
      }
    } else {
      var steps, s := StaleReadRepeatsAll(listId, table);
      assert Quiet(listId, table, steps, true) && Run(listId, table, steps).Some?;
    }
  }
}
