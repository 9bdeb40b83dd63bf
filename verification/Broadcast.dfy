/**
Broadcast fan-out: `executeBroadcast` and `resumeBroadcast`, run without interruption.

The member table may change arbitrarily between two page queries: `db(k)` is the table the k-th query sees, or
nothing when that query fails.
*/
module Broadcast {
  import opened MemberStatus
  import opened Options
  import opened Sorting
  import opened MemberPages

  const BATCH_SIZE := 100
  const LOCK_TTL_MS := 300_000

  type Database = nat -> Option<Table>

  function NextPage(table: Table, listId: nat, cursor: Option<nat>): Page {
    ListByList(table, listId, cursor, Some(BATCH_SIZE))
  }

  lemma PageAdvances(table: Table, listId: nat, cursor: Option<nat>)
    ensures var next := NextPage(table, listId, cursor).cursor;
            next.Some? && cursor.Some? ==> next.value < cursor.value
  {
    NextCursor(table, listId, cursor, Some(BATCH_SIZE));
  }

  function Ids(rows: seq<Row>): seq<nat> {
    seq(|rows|, i requires 0 <= i < |rows| => rows[i].id)
  }

  datatype BroadcastStatus = Running | Completed | Failed

  /** The progress hash; `details` says that the request fields written at the start are all there. */
  datatype Progress = Progress(
    status: Option<BroadcastStatus>, offset: Option<nat>, processed: Option<nat>, details: bool)

  /** The members a run sends to, whether every query succeeded, and the progress hash it leaves. */
  datatype Outcome = Outcome(sent: seq<nat>, ok: bool, progress: Progress) {
    function Prepend(ids: seq<nat>): Outcome {
      Outcome(ids + sent, ok, progress)
    }
  }

  /** The hash after a page. */
  function AfterPage(p: Progress, page: Page, processed: nat): Progress {
    p.(offset := page.cursor, processed := Some(processed))
  }

  /** The paging loop from the k-th query on, with the hash and the count of members it starts from. */
  function Walk(db: Database, listId: nat, k: nat, cursor: Option<nat>, p: Progress, processed: nat): Outcome
    decreases cursor.None?, if cursor.Some? then cursor.value else 0
  {
    match db(k)
    case None => Outcome([], false, p.(status := Some(Failed)))
    case Some(table) =>
      var page := NextPage(table, listId, cursor);
      PageAdvances(table, listId, cursor);
      var ids := Ids(page.items);
      var p' := AfterPage(p, page, processed + |ids|);
      if page.cursor.None? then Outcome(ids, true, p'.(status := Some(Completed)))
      else Walk(db, listId, k + 1, page.cursor, p', processed + |ids|).Prepend(ids)
  }

  /** Where the loop stands: what it has sent, the hash it has written, and the walk still before it, if any. */
  datatype Position = At(k: nat, cursor: Option<nat>) | Finished(ok: bool)

  ghost predicate Leads(
    db: Database, listId: nat, at: Position, p: Progress, processed: nat, sent: seq<nat>, goal: Outcome)
  {
    goal == match at
            case At(k, cursor) => Walk(db, listId, k, cursor, p, processed).Prepend(sent)
            case Finished(ok) => Outcome(sent, ok, p.(status := Some(if ok then Completed else Failed)))
  }

  lemma LeadsFromStart(db: Database, listId: nat, start: Option<nat>, p: Progress, processed: nat)
    ensures Leads(db, listId, At(0, start), p, processed, [], Walk(db, listId, 0, start, p, processed))
  {
    var walk := Walk(db, listId, 0, start, p, processed);
    assert [] + walk.sent == walk.sent;
  }

  lemma LeadsPastPage(
    db: Database, listId: nat, k: nat, cursor: Option<nat>, p: Progress, processed: nat, sent: seq<nat>, goal: Outcome,
    page: Page, total: nat)
    requires db(k).Some? && page == NextPage(db(k).value, listId, cursor) && total == processed + |Ids(page.items)|
    requires Leads(db, listId, At(k, cursor), p, processed, sent, goal)
    ensures Leads(db, listId, if page.cursor.Some? then At(k + 1, page.cursor) else Finished(true),
                  AfterPage(p, page, total), total, sent + Ids(page.items), goal)
  {
    hide NextPage, Ids;
    if page.cursor.Some? {
      var rest := Walk(db, listId, k + 1, page.cursor, AfterPage(p, page, total), total);
      assert sent + (Ids(page.items) + rest.sent) == sent + Ids(page.items) + rest.sent;
    }
  }

  lemma LeadsToFailure(
    db: Database, listId: nat, k: nat, cursor: Option<nat>, p: Progress, processed: nat, sent: seq<nat>, goal: Outcome)
    requires db(k).None? && Leads(db, listId, At(k, cursor), p, processed, sent, goal)
    ensures Leads(db, listId, Finished(false), p, processed, sent, goal)
  {
    assert sent + [] == sent;
  }

  lemma LeadsToEnd(
    db: Database, listId: nat, ok: bool, p: Progress, processed: nat, sent: seq<nat>, goal: Outcome)
    requires Leads(db, listId, Finished(ok), p, processed, sent, goal)
    ensures goal == Outcome(sent, ok, p.(status := Some(if ok then Completed else Failed)))
  {
  }

  datatype ListRecord = ListRecord(id: nat, archived: bool)

  datatype Error = ListNotFound | ListArchived | NoConfirmedMembers | AlreadyRunning | QueryFailed

  datatype Result = Done(processedCount: nat) | Nothing | Err(error: Error)

  class BroadcastService {
    var progress: map<nat, Progress>
    var locks: map<nat, nat>

    predicate LockFree(id: nat, now: nat)
      reads this
    {
      id !in locks || locks[id] <= now
    }

    function Processed(id: nat): Option<nat>
      reads this
    {
      if id in progress then progress[id].processed else None
    }

    /** Number.parseInt(progress.processed ?? "0") */
    function Already(id: nat): nat
      reads this
    {
      if Processed(id).Some? then Processed(id).value else 0
    }

    predicate InFlight(id: nat)
      reads this
    {
      id in progress && progress[id].status == Some(Running)
    }

    /** One page's sends; a send that throws is logged and counted like any other. */
    method SendTo(items: seq<Row>) returns (sent: seq<nat>)
      ensures sent == Ids(items)
    {
      sent := [];
      for i := 0 to |items|
        invariant sent == Ids(items)[..i]
      {
        sent := sent + [items[i].id];
      }
    }

    /** One round of the loop: a page is queried, sent, and recorded in the progress hash. */
    method SendPage(id: nat, table: Table, listId: nat, cursor: Option<nat>, processed: nat)
      returns (page: Page, ids: seq<nat>, total: nat)
      requires id in progress
      modifies this`progress
      ensures page == NextPage(table, listId, cursor) && ids == Ids(page.items) && total == processed + |ids|
      ensures progress == old(progress)[id := AfterPage(old(progress)[id], page, total)]
    {
      page := NextPage(table, listId, cursor);
      ids := SendTo(page.items);
      total := processed + |ids|;
      progress := progress[id := progress[id].(offset := page.cursor)];
      progress := progress[id := progress[id].(processed := Some(total))];
    }

    /** The paging loop shared by both entry points, from its first query to the final status. */
    method SendPages(id: nat, listId: nat, db: Database, start: Option<nat>, already: nat)
      returns (ok: bool, sent: seq<nat>)
      requires id in progress
      modifies this`progress
      ensures var walk := Walk(db, listId, 0, start, old(progress)[id], already);
              sent == walk.sent && ok == walk.ok && progress == old(progress)[id := walk.progress]
      ensures id in progress && progress[id].details == old(progress)[id].details
      ensures ok ==> progress[id].status == Some(Completed) && progress[id].offset == None
                     && progress[id].processed == Some(already + |sent|)
      ensures !ok ==> progress[id].status == Some(Failed)
                      && (if sent == [] then progress[id] == old(progress)[id].(status := Some(Failed))
                          else progress[id].processed == Some(already + |sent|))
      ensures !ok && start == old(progress)[id].offset ==> CanGoOn(db, listId, start, sent, progress[id].offset)
    {
      ghost var p := progress[id];
      ghost var goal := Walk(db, listId, 0, start, p, already);
      WalkRecords(db, listId, 0, start, p, already);
      if !goal.ok && start == p.offset {
        FailedWalkCanGoOn(db, listId, start, p, already);
      }
      LeadsFromStart(db, listId, start, p, already);
      hide NextPage, Ids, Walk, Leads, CanGoOn;
      var cursor, processed, k := start, already, 0;
      sent, ok := [], true;
      var more := true;
      while more
        invariant progress == old(progress)[id := p]
        invariant processed >= 0
        invariant Leads(db, listId, if more then At(k, cursor) else Finished(ok), p, processed, sent, goal)
        decreases more, cursor.None?, if cursor.Some? then cursor.value else 0
      {
        if db(k).Some? {
          PageAdvances(db(k).value, listId, cursor);
          var page, ids, total := SendPage(id, db(k).value, listId, cursor, processed);
          LeadsPastPage(db, listId, k, cursor, p, processed, sent, goal, page, total);
          p := AfterPage(p, page, total);
          sent, processed, cursor, more, k := sent + ids, total, page.cursor, page.cursor.Some?, k + 1;
          ok := true;
        } else {
          LeadsToFailure(db, listId, k, cursor, p, processed, sent, goal);
          more, ok := false, false;
        }
      }
      LeadsToEnd(db, listId, ok, p, processed, sent, goal);
      progress := progress[id := progress[id].(status := Some(if ok then Completed else Failed))];
    }

    method ExecuteBroadcast(id: nat, list: Option<ListRecord>, confirmedCount: nat, db: Database, now: nat)
      returns (r: Result, sent: seq<nat>)
      modifies this
      ensures list.None? ==> r == Err(ListNotFound)
      ensures list.Some? && list.value.archived ==> r == Err(ListArchived)
      ensures list.Some? && !list.value.archived && confirmedCount == 0 ==> r == Err(NoConfirmedMembers)
      ensures list.Some? && !list.value.archived && confirmedCount > 0 && !old(LockFree(id, now)) ==>
                r == Err(AlreadyRunning)
      ensures r.Err? && r.error != QueryFailed ==> sent == [] && progress == old(progress) && locks == old(locks)
      ensures list.Some? && !list.value.archived && confirmedCount > 0 && old(LockFree(id, now)) ==>
                var begun := Progress(Some(Running), None, old(Processed(id)), true);
                var walk := Walk(db, list.value.id, 0, None, begun, 0);
                && sent == walk.sent && r == (if walk.ok then Done(|sent|) else Err(QueryFailed))
                && progress == old(progress)[id := walk.progress] && locks == old(locks) - {id}
      ensures r.Done? ==> id in progress && progress[id] == Progress(Some(Completed), None, Some(|sent|), true)
      ensures r == Err(QueryFailed) ==>
                && id in progress && progress[id].status == Some(Failed) && progress[id].details
                && progress[id].processed == (if sent == [] then old(Processed(id)) else Some(|sent|))
                && CanGoOn(db, list.value.id, None, sent, progress[id].offset)
    {
      hide CanGoOn;
      sent := [];
      if list.None? {
        return Err(ListNotFound), sent;
      }
      if list.value.archived {
        return Err(ListArchived), sent;
      }
      if confirmedCount == 0 {
        return Err(NoConfirmedMembers), sent;
      }
      if !LockFree(id, now) {
        return Err(AlreadyRunning), sent;
      }
      locks := locks[id := now + LOCK_TTL_MS];
      progress := progress[id := Progress(Some(Running), None, Processed(id), true)];
      var ok;
      ok, sent := SendPages(id, list.value.id, db, None, 0);
      locks := locks - {id};
      r := if ok then Done(|sent|) else Err(QueryFailed);
    }

    method ResumeBroadcast(id: nat, list: Option<ListRecord>, db: Database, now: nat)
      returns (r: Result, sent: seq<nat>)
      modifies this
      ensures !old(InFlight(id)) ==> r == Nothing && sent == [] && progress == old(progress) && locks == old(locks)
      ensures old(InFlight(id)) && (list.None? || list.value.archived || !old(progress[id].details)) ==>
                && r == Nothing && sent == [] && locks == old(locks)
                && progress == old(progress)[id := old(progress[id]).(status := Some(Failed))]
      ensures old(InFlight(id) && progress[id].details) && list.Some? && !list.value.archived
              && !old(LockFree(id, now)) ==>
                r == Nothing && sent == [] && progress == old(progress) && locks == old(locks)
      ensures old(InFlight(id) && progress[id].details) && list.Some? && !list.value.archived
              && old(LockFree(id, now)) ==>
                var already := old(Already(id));
                var walk := Walk(db, list.value.id, 0, old(progress[id].offset), old(progress[id]), already);
                && sent == walk.sent && r == (if walk.ok then Done(already + |sent|) else Err(QueryFailed))
                && progress == old(progress)[id := walk.progress] && locks == old(locks) - {id}
      ensures r.Done? ==>
                && r.processedCount == old(Already(id)) + |sent|
                && id in progress && progress[id] == Progress(Some(Completed), None, Some(r.processedCount), true)
      ensures r == Err(QueryFailed) ==>
                && id in progress && progress[id].status == Some(Failed) && progress[id].details
                && progress[id].processed
                   == (if sent == [] then old(Processed(id)) else Some(old(Already(id)) + |sent|))
                && CanGoOn(db, list.value.id, old(progress[id].offset), sent, progress[id].offset)
    {
      hide CanGoOn;
      sent := [];
      if !InFlight(id) {
        return Nothing, sent;
      }
      if !progress[id].details || list.None? || list.value.archived {
        progress := progress[id := progress[id].(status := Some(Failed))];
        return Nothing, sent;
      }
      if !LockFree(id, now) {
        return Nothing, sent;
      }
      var already := Already(id);
      locks := locks[id := now + LOCK_TTL_MS];
      var ok;
      ok, sent := SendPages(id, list.value.id, db, progress[id].offset, already);
      locks := locks - {id};
      r := if ok then Done(already + |sent|) else Err(QueryFailed);
    }

  }

  /** One round of a walk, unfolded. */
  lemma WalkRound(db: Database, listId: nat, k: nat, cursor: Option<nat>, p: Progress, n: nat)
    requires db(k).Some?
    ensures
      var page := NextPage(db(k).value, listId, cursor);
      var ids := Ids(page.items);
      var p', n' := AfterPage(p, page, n + |ids|), n + |ids|;
      var walk := Walk(db, listId, k, cursor, p, n);
      && (page.cursor.Some? ==> ids != [] && (cursor.Some? ==> page.cursor.value < cursor.value))
      && if page.cursor.None? then walk == Outcome(ids, true, p'.(status := Some(Completed)))
         else
           var rest := Walk(db, listId, k + 1, page.cursor, p', n');
           walk.sent == ids + rest.sent && walk.ok == rest.ok && walk.progress == rest.progress
  {
    PageAdvances(db(k).value, listId, cursor);
    NextCursor(db(k).value, listId, cursor, Some(BATCH_SIZE));
    hide NextPage, AfterPage;
  }

  lemma WalkFails(db: Database, listId: nat, k: nat, cursor: Option<nat>, p: Progress, n: nat)
    requires db(k).None?
    ensures Walk(db, listId, k, cursor, p, n) == Outcome([], false, p.(status := Some(Failed)))
  {
  }

  /** What a walk leaves in the progress hash. */
  lemma {:induction false} WalkRecords(db: Database, listId: nat, k: nat, cursor: Option<nat>, p: Progress, n: nat)
    ensures
      var walk := Walk(db, listId, k, cursor, p, n);
      && walk.progress.details == p.details
      && walk.progress.status == Some(if walk.ok then Completed else Failed)
      && (walk.ok ==> walk.progress.offset == None && walk.progress.processed == Some(n + |walk.sent|))
      && (!walk.ok && walk.sent == [] ==> walk.progress == p.(status := Some(Failed)))
      && (!walk.ok && walk.sent != [] ==> walk.progress.processed == Some(n + |walk.sent|))
    decreases cursor.None?, if cursor.Some? then cursor.value else 0
  {
    hide NextPage, Walk, Ids;
    if db(k).Some? {
      var page := NextPage(db(k).value, listId, cursor);
      WalkRound(db, listId, k, cursor, p, n);
      if page.cursor.Some? {
        var n' := n + |Ids(page.items)|;
        WalkRecords(db, listId, k + 1, page.cursor, AfterPage(p, page, n'), n');
      }
    } else {
      WalkFails(db, listId, k, cursor, p, n);
    }
  }

  /** What a run sends to, and the offset it leaves: the members still to come are those before the offset. */
  ghost predicate CanGoOn(db: Database, listId: nat, start: Option<nat>, sent: seq<nat>, offset: Option<nat>) {
    forall birth: nat -> nat | ConsistentDatabase(db, birth) ::
      && AllBehind(birth, sent, offset)
      && forall m: Row | ConfirmedThroughout(db, listId, m) && AloneThroughout(db, listId, m) ::
           Before(m.createdAt, start) ==> m.id in sent || Before(m.createdAt, offset)
  }

  lemma FailedWalkCanGoOn(db: Database, listId: nat, start: Option<nat>, p: Progress, n: nat)
    requires start == p.offset && !Walk(db, listId, 0, start, p, n).ok
    ensures var walk := Walk(db, listId, 0, start, p, n); CanGoOn(db, listId, start, walk.sent, walk.progress.offset)
  {
    var walk := Walk(db, listId, 0, start, p, n);
    forall birth: nat -> nat | ConsistentDatabase(db, birth)
      ensures AllBehind(birth, walk.sent, walk.progress.offset)
    {
      SentIsBehind(db, birth, listId, 0, start, p, n);
    }
    forall birth: nat -> nat, m: Row |
      ConsistentDatabase(db, birth) && ConfirmedThroughout(db, listId, m) && AloneThroughout(db, listId, m)
      ensures Before(m.createdAt, start) ==> m.id in walk.sent || Before(m.createdAt, walk.progress.offset)
    {
      if Before(m.createdAt, start) {
        UnsentIsAhead(db, birth, listId, 0, start, p, n, m);
      }
    }
    hide Walk, ConsistentDatabase, ConfirmedThroughout, AloneThroughout;
  }

  /** The saved offset lies behind the cursor the walk began with. */
  ghost predicate NotAhead(offset: Option<nat>, cursor: Option<nat>) {
    offset == cursor || (offset.Some? && (cursor.Some? ==> offset.value <= cursor.value))
  }

  ghost predicate AllBehind(birth: nat -> nat, ids: seq<nat>, offset: Option<nat>) {
    forall x <- ids :: !Before(birth(x), offset)
  }

  /** Nobody sent to lies before the offset left, and the offset has not moved up. */
  ghost predicate Behind(birth: nat -> nat, walk: Outcome, cursor: Option<nat>) {
    AllBehind(birth, walk.sent, walk.progress.offset) && NotAhead(walk.progress.offset, cursor)
  }

  lemma RoundIsBehind(
    db: Database, birth: nat -> nat, listId: nat, k: nat, cursor: Option<nat>, p: Progress, n: nat, page: Page, n': nat)
    requires db(k).Some? && Consistent(db(k).value, birth)
    requires page == NextPage(db(k).value, listId, cursor) && n' == n + |Ids(page.items)| && page.cursor.Some?
    requires Behind(birth, Walk(db, listId, k + 1, page.cursor, AfterPage(p, page, n'), n'), page.cursor)
    ensures Behind(birth, Walk(db, listId, k, cursor, p, n), cursor)
  {
    hide NextPage, Ids, Walk, Consistent, NotAhead, AllBehind, AfterPage;
    PageIsBehind(db(k).value, birth, listId, cursor);
    WalkRound(db, listId, k, cursor, p, n);
    var rest := Walk(db, listId, k + 1, page.cursor, AfterPage(p, page, n'), n');
    PageStaysBehind(birth, Ids(page.items), rest.sent, cursor, page.cursor, rest.progress.offset);
  }

  lemma {:induction false} SentIsBehind(
    db: Database, birth: nat -> nat, listId: nat, k: nat, cursor: Option<nat>, p: Progress, n: nat)
    requires ConsistentDatabase(db, birth) && p.offset == cursor && !Walk(db, listId, k, cursor, p, n).ok
    ensures Behind(birth, Walk(db, listId, k, cursor, p, n), cursor)
    decreases cursor.None?, if cursor.Some? then cursor.value else 0
  {
    hide *;
    if db(k).None? {
      NobodyBehind(db, birth, listId, k, cursor, p, n);
    } else {
      TableIsConsistent(db, birth, k);
      var page := NextPage(db(k).value, listId, cursor);
      var n' := n + |Ids(page.items)|;
      WalkRound(db, listId, k, cursor, p, n);
      PageSaves(p, page, n');
      SentIsBehind(db, birth, listId, k + 1, page.cursor, AfterPage(p, page, n'), n');
      RoundIsBehind(db, birth, listId, k, cursor, p, n, page, n');
    }
  }

  lemma NobodyBehind(
    db: Database, birth: nat -> nat, listId: nat, k: nat, cursor: Option<nat>, p: Progress, n: nat)
    requires db(k).None? && p.offset == cursor
    ensures Behind(birth, Walk(db, listId, k, cursor, p, n), cursor)
  {
  }

  lemma TableIsConsistent(db: Database, birth: nat -> nat, k: nat)
    requires ConsistentDatabase(db, birth) && db(k).Some?
    ensures Consistent(db(k).value, birth)
  {
  }

  lemma PageSaves(p: Progress, page: Page, n: nat)
    ensures AfterPage(p, page, n).offset == page.cursor
  {
  }

  lemma PageIsBehind(table: Table, birth: nat -> nat, listId: nat, cursor: Option<nat>)
    requires Consistent(table, birth)
    ensures var page := NextPage(table, listId, cursor);
            page.cursor.Some? ==> AllBehind(birth, Ids(page.items), page.cursor)
  {
    PageIds(table, birth, listId, cursor);
    hide NextPage, Ids;
  }

  lemma PageStaysBehind(
    birth: nat -> nat, ids: seq<nat>, rest: seq<nat>, cursor: Option<nat>, next: Option<nat>, offset: Option<nat>)
    requires next.Some? && (cursor.Some? ==> next.value < cursor.value) && NotAhead(offset, next)
    requires AllBehind(birth, ids, next) && AllBehind(birth, rest, offset)
    ensures AllBehind(birth, ids + rest, offset) && NotAhead(offset, cursor)
  {
  }

  lemma {:induction false} UnsentIsAhead(
    db: Database, birth: nat -> nat, listId: nat, k: nat, cursor: Option<nat>, p: Progress, n: nat, m: Row)
    requires ConsistentDatabase(db, birth) && ConfirmedThroughout(db, listId, m) && AloneThroughout(db, listId, m)
    requires p.offset == cursor && Before(m.createdAt, cursor) && !Walk(db, listId, k, cursor, p, n).ok
    ensures var walk := Walk(db, listId, k, cursor, p, n);
            m.id in walk.sent || Before(m.createdAt, walk.progress.offset)
    decreases cursor.None?, if cursor.Some? then cursor.value else 0
  {
    if db(k).Some? {
      var table := db(k).value;
      var page := NextPage(table, listId, cursor);
      assert Consistent(table, birth) && m in table && AloneInItsMillisecond(table, listId, m);
      hide NextPage, Ids, Walk, ConsistentDatabase, AloneThroughout, AloneInItsMillisecond, Before;
      PageReaches(table, listId, cursor, m);
      WalkRound(db, listId, k, cursor, p, n);
      var n' := n + |Ids(page.items)|;
      if m.id !in Ids(page.items) {
        UnsentIsAhead(db, birth, listId, k + 1, page.cursor, AfterPage(p, page, n'), n', m);
      }
    } else {
      WalkFails(db, listId, k, cursor, p, n);
    }
  }

  /** A member alone in its millisecond is on the page or before the next cursor. */
  lemma PageReaches(table: Table, listId: nat, cursor: Option<nat>, m: Row)
    requires UniqueIds(table) && m in table && m.listId == listId && m.status == Confirmed
    requires AloneInItsMillisecond(table, listId, m) && Before(m.createdAt, cursor)
    ensures var page := NextPage(table, listId, cursor);
            m.id in Ids(page.items) || (page.cursor.Some? && Before(m.createdAt, page.cursor))
  {
    var page := NextPage(table, listId, cursor);
    PageAndMember(table, listId, cursor, m);
    NextCursor(table, listId, cursor, Some(BATCH_SIZE));
    PageHolds(table, listId, cursor, Some(BATCH_SIZE));
    if page.cursor.Some? {
      assert Waiting(page.items[|page.items| - 1], table, listId, cursor);
    }
  }

  // ---------------------------------------------------------------------------------------------
  // Whom an uninterrupted run reaches
  // ---------------------------------------------------------------------------------------------

  /** Ids are unique in every table, and a row's creation time never changes. */
  ghost predicate Consistent(table: Table, birth: nat -> nat) {
    UniqueIds(table) && forall r <- table :: r.createdAt == birth(r.id)
  }

  ghost predicate ConsistentDatabase(db: Database, birth: nat -> nat) {
    forall k: nat :: db(k).Some? ==> Consistent(db(k).value, birth)
  }

  ghost predicate Distinct(ids: seq<nat>) {
    forall i, j | 0 <= i < j < |ids| :: ids[i] != ids[j]
  }

  /** The ids of one page are different, lie before the cursor, and not before the next one. */
  lemma PageIds(table: Table, birth: nat -> nat, listId: nat, cursor: Option<nat>)
    requires Consistent(table, birth)
    ensures
      var page := NextPage(table, listId, cursor);
      && Distinct(Ids(page.items))
      && (forall x <- Ids(page.items) :: Before(birth(x), cursor))
      && (page.cursor.Some? ==> forall x <- Ids(page.items) :: !Before(birth(x), page.cursor))
  {
    var page := NextPage(table, listId, cursor);
    PageHolds(table, listId, cursor, Some(BATCH_SIZE));
    forall x <- Ids(page.items)
      ensures Before(birth(x), cursor) && (page.cursor.Some? ==> !Before(birth(x), page.cursor))
    {
      var i :| 0 <= i < |page.items| && Ids(page.items)[i] == x;
      assert Waiting(page.items[i], table, listId, cursor);
    }
  }

  lemma DistinctAppend(a: seq<nat>, b: seq<nat>)
    requires Distinct(a) && Distinct(b) && forall x <- a :: x !in b
    ensures Distinct(a + b)
  {
    forall i, j | 0 <= i < j < |a + b| ensures (a + b)[i] != (a + b)[j] {
      if i < |a| <= j {
        assert a[i] in a && b[j - |a|] in b;
      }
    }
  }

  /** What one round of a walk adds to its sends. */
  lemma WalkSends(db: Database, listId: nat, k: nat, cursor: Option<nat>, p: Progress, n: nat)
    ensures
      var sent := Walk(db, listId, k, cursor, p, n).sent;
      if db(k).None? then sent == []
      else
        var page := NextPage(db(k).value, listId, cursor);
        var n' := n + |Ids(page.items)|;
        sent == Ids(page.items)
                + if page.cursor.None? then []
                  else Walk(db, listId, k + 1, page.cursor, AfterPage(p, page, n'), n').sent
  {
    if db(k).Some? {
      var page := NextPage(db(k).value, listId, cursor);
      PageAdvances(db(k).value, listId, cursor);
      hide NextPage, Ids, AfterPage;
      assert Ids(page.items) + [] == Ids(page.items);
    }
  }

  /** Different ids, all of rows created before the cursor. */
  ghost predicate Apart(birth: nat -> nat, ids: seq<nat>, cursor: Option<nat>) {
    Distinct(ids) && forall x <- ids :: Before(birth(x), cursor)
  }

  lemma NoneApart(birth: nat -> nat, cursor: Option<nat>)
    ensures Apart(birth, [], cursor)
  {
  }

  lemma PageIsApart(table: Table, birth: nat -> nat, listId: nat, cursor: Option<nat>)
    requires Consistent(table, birth)
    ensures Apart(birth, Ids(NextPage(table, listId, cursor).items), cursor)
  {
    PageIds(table, birth, listId, cursor);
    hide NextPage, Ids;
  }

  /** A page in front of sends that all lie before its cursor. */
  lemma PageThenRest(
    table: Table, birth: nat -> nat, listId: nat, cursor: Option<nat>, next: Option<nat>, ids: seq<nat>, rest: seq<nat>)
    requires Consistent(table, birth)
    requires var page := NextPage(table, listId, cursor); ids == Ids(page.items) && next == page.cursor && next.Some?
    requires Apart(birth, rest, next)
    ensures Apart(birth, ids + rest, cursor)
  {
    PageIds(table, birth, listId, cursor);
    PageAdvances(table, listId, cursor);
    hide NextPage, Ids;
    DistinctAppend(ids, rest);
  }

  lemma {:induction false} WalkIsApart(
    db: Database, birth: nat -> nat, listId: nat, k: nat, cursor: Option<nat>, p: Progress, n: nat)
    requires ConsistentDatabase(db, birth)
    ensures Apart(birth, Walk(db, listId, k, cursor, p, n).sent, cursor)
    decreases cursor.None?, if cursor.Some? then cursor.value else 0
  {
    hide *;
    if db(k).None? {
      WalkFails(db, listId, k, cursor, p, n);
      NoneApart(birth, cursor);
    } else {
      var table := db(k).value;
      var page := NextPage(table, listId, cursor);
      TableIsConsistent(db, birth, k);
      WalkRound(db, listId, k, cursor, p, n);
      PageIsApart(table, birth, listId, cursor);
      if page.cursor.Some? {
        var n' := n + |Ids(page.items)|;
        var p' := AfterPage(p, page, n');
        WalkIsApart(db, birth, listId, k + 1, page.cursor, p', n');
        var rest := Walk(db, listId, k + 1, page.cursor, p', n').sent;
        PageThenRest(table, birth, listId, cursor, page.cursor, Ids(page.items), rest);
      }
    }
  }

  /** No member is sent to twice, even among equal creation times: every page lies wholly before the last. */
  lemma NoMemberTwice(
    db: Database, birth: nat -> nat, listId: nat, k: nat, cursor: Option<nat>, p: Progress, n: nat)
    requires ConsistentDatabase(db, birth)
    ensures Distinct(Walk(db, listId, k, cursor, p, n).sent)
    ensures forall x <- Walk(db, listId, k, cursor, p, n).sent :: Before(birth(x), cursor)
  {
    WalkIsApart(db, birth, listId, k, cursor, p, n);
    hide Walk, Distinct, Before, ConsistentDatabase;
  }

  lemma IdsHold(rows: seq<Row>, x: nat)
    ensures x in Ids(rows) <==> exists r <- rows :: r.id == x
  {
    if r :| r in rows && r.id == x {
      var i :| 0 <= i < |rows| && rows[i] == r;
      assert Ids(rows)[i] == x;
    }
  }

  lemma PageHasConfirmed(table: Table, listId: nat, cursor: Option<nat>, x: nat) returns (r: Row)
    requires UniqueIds(table) && x in Ids(NextPage(table, listId, cursor).items)
    ensures r in table && r.id == x && r.listId == listId && r.status == Confirmed
  {
    var items := NextPage(table, listId, cursor).items;
    PageHolds(table, listId, cursor, Some(BATCH_SIZE));
    IdsHold(items, x);
    r :| r in items && r.id == x;
    assert Waiting(r, table, listId, cursor);
  }

  /** Only members that some query saw confirmed are sent to. */
  lemma {:induction false} OnlyConfirmedMembers(
    db: Database, listId: nat, k: nat, cursor: Option<nat>, p: Progress, n: nat, x: nat)
    returns (j: nat, r: Row)
    requires forall j: nat :: db(j).Some? ==> UniqueIds(db(j).value)
    requires x in Walk(db, listId, k, cursor, p, n).sent
    ensures k <= j && db(j).Some? && r in db(j).value
    ensures r.id == x && r.listId == listId && r.status == Confirmed
    decreases cursor.None?, if cursor.Some? then cursor.value else 0
  {
    var page := NextPage(db(k).value, listId, cursor);
    PageAdvances(db(k).value, listId, cursor);
    if x in Ids(page.items) {
      j := k;
      r := PageHasConfirmed(db(k).value, listId, cursor, x);
    } else {
      var n' := n + |Ids(page.items)|;
      j, r := OnlyConfirmedMembers(db, listId, k + 1, page.cursor, AfterPage(p, page, n'), n', x);
    }
  }

  /** The member is confirmed in the table of every query. */
  ghost predicate ConfirmedThroughout(db: Database, listId: nat, m: Row) {
    m.listId == listId && m.status == Confirmed && forall k: nat :: db(k).Some? ==> m in db(k).value
  }

  /** Some page ends within the member's millisecond without holding the member. */
  ghost predicate Skipped(db: Database, listId: nat, k: nat, cursor: Option<nat>, m: Row)
    decreases cursor.None?, if cursor.Some? then cursor.value else 0
  {
    db(k).Some? &&
    var page := NextPage(db(k).value, listId, cursor);
    PageAdvances(db(k).value, listId, cursor);
    page.cursor.Some? &&
    ((page.cursor.value == Ms(m.createdAt) && m !in page.items) || Skipped(db, listId, k + 1, page.cursor, m))
  }

  lemma {:induction false} SkippedIsBefore(db: Database, listId: nat, k: nat, cursor: Option<nat>, m: Row)
    requires Skipped(db, listId, k, cursor, m)
    ensures Before(m.createdAt, cursor)
    decreases cursor.None?, if cursor.Some? then cursor.value else 0
  {
    var page := NextPage(db(k).value, listId, cursor);
    NextCursor(db(k).value, listId, cursor, Some(BATCH_SIZE));
    if !(page.cursor.value == Ms(m.createdAt) && m !in page.items) {
      SkippedIsBefore(db, listId, k + 1, page.cursor, m);
    }
  }

  lemma SameIdSameRow(rows: seq<Row>, r: Row, m: Row)
    requires UniqueIds(rows) && r in rows && m in rows && r.id == m.id
    ensures r == m
  {
  }

  /** What one page does for a confirmed member of its table. */
  lemma PageAndMember(table: Table, listId: nat, cursor: Option<nat>, m: Row)
    requires UniqueIds(table) && m in table && m.listId == listId && m.status == Confirmed
    ensures
      var page := NextPage(table, listId, cursor);
      && (m.id in Ids(page.items) <==> m in page.items)
      && (m in page.items ==> Before(m.createdAt, cursor) && !(page.cursor.Some? && Before(m.createdAt, page.cursor)))
      && (Before(m.createdAt, cursor) && m !in page.items ==>
            page.cursor.Some? && Ms(m.createdAt) <= page.cursor.value)
      && (page.cursor.Some? ==> Before(page.cursor.value * 1000, cursor))
  {
    var page := NextPage(table, listId, cursor);
    PageHolds(table, listId, cursor, Some(BATCH_SIZE));
    NextCursor(table, listId, cursor, Some(BATCH_SIZE));
    IdsHold(page.items, m.id);
    if r :| r in page.items && r.id == m.id {
      assert Waiting(r, table, listId, cursor);
      SameIdSameRow(table, r, m);
    }
    if Before(m.createdAt, cursor) {
      PageLeaves(table, listId, cursor, Some(BATCH_SIZE), m);
    }
  }

  /** No query fails before the last page. */
  ghost predicate Completes(db: Database, listId: nat, k: nat, cursor: Option<nat>, p: Progress, n: nat) {
    Walk(db, listId, k, cursor, p, n).ok
  }

  /**
  A completed run reaches a member confirmed throughout exactly when no page ends within the member's
  millisecond without holding the member.
  */
  lemma {:induction false} ReachedExact(
    db: Database, birth: nat -> nat, listId: nat, k: nat, cursor: Option<nat>, p: Progress, n: nat, m: Row)
    requires ConsistentDatabase(db, birth) && ConfirmedThroughout(db, listId, m)
    requires Completes(db, listId, k, cursor, p, n)
    ensures m.id in Walk(db, listId, k, cursor, p, n).sent
            <==> Before(m.createdAt, cursor) && !Skipped(db, listId, k, cursor, m)
    decreases cursor.None?, if cursor.Some? then cursor.value else 0
  {
    hide NextPage, Ids;
    var table := db(k).value;
    var page := NextPage(table, listId, cursor);
    assert Consistent(table, birth) && m in table;
    PageAndMember(table, listId, cursor, m);
    PageAdvances(table, listId, cursor);
    if page.cursor.Some? {
      var n' := n + |Ids(page.items)|;
      ReachedExact(db, birth, listId, k + 1, page.cursor, AfterPage(p, page, n'), n', m);
      if Skipped(db, listId, k + 1, page.cursor, m) {
        SkippedIsBefore(db, listId, k + 1, page.cursor, m);
      }
    }
  }

  /** No other confirmed member of the list shares the member's millisecond. */
  ghost predicate AloneInItsMillisecond(table: Table, listId: nat, m: Row) {
    forall r <- table | r.listId == listId && r.status == Confirmed && Ms(r.createdAt) == Ms(m.createdAt) :: r == m
  }

  ghost predicate AloneThroughout(db: Database, listId: nat, m: Row) {
    forall k: nat :: db(k).Some? ==> AloneInItsMillisecond(db(k).value, listId, m)
  }

  lemma {:induction false} AloneIsNotSkipped(db: Database, listId: nat, k: nat, cursor: Option<nat>, m: Row)
    requires forall j: nat :: db(j).Some? ==> UniqueIds(db(j).value) && AloneInItsMillisecond(db(j).value, listId, m)
    ensures !Skipped(db, listId, k, cursor, m)
    decreases cursor.None?, if cursor.Some? then cursor.value else 0
  {
    if db(k).Some? {
      var page := NextPage(db(k).value, listId, cursor);
      NextCursor(db(k).value, listId, cursor, Some(BATCH_SIZE));
      PageHolds(db(k).value, listId, cursor, Some(BATCH_SIZE));
      if page.cursor.Some? {
        var last := page.items[|page.items| - 1];
        assert Waiting(last, db(k).value, listId, cursor);
        AloneIsNotSkipped(db, listId, k + 1, page.cursor, m);
      }
    }
  }

  ghost function Occurrences(ids: seq<nat>, x: nat): nat {
    multiset(ids)[x]
  }

  lemma {:induction false} DistinctCounts(ids: seq<nat>, x: nat)
    requires Distinct(ids)
    ensures Occurrences(ids, x) == if x in ids then 1 else 0
  {
    if ids != [] {
      var n := |ids| - 1;
      DistinctCounts(ids[..n], x);
      assert ids == ids[..n] + [ids[n]];
    }
  }

  /**
  While members join, leave and change status between pages, a completed broadcast sends exactly once to every
  member that is confirmed throughout and alone in its millisecond.
  */
  lemma ExactlyOnce(db: Database, birth: nat -> nat, listId: nat, p: Progress, m: Row)
    requires ConsistentDatabase(db, birth) && ConfirmedThroughout(db, listId, m)
    requires AloneThroughout(db, listId, m)
    requires Completes(db, listId, 0, None, p, 0)
    ensures Occurrences(Walk(db, listId, 0, None, p, 0).sent, m.id) == 1
  {
    assert forall j: nat :: db(j).Some? ==> Consistent(db(j).value, birth);
    NoMemberTwice(db, birth, listId, 0, None, p, 0);
    AloneIsNotSkipped(db, listId, 0, None, m);
    ReachedExact(db, birth, listId, 0, None, p, 0, m);
    DistinctCounts(Walk(db, listId, 0, None, p, 0).sent, m.id);
  }

  // ---------------------------------------------------------------------------------------------
  // The hundredth and the hundred-and-first
  // ---------------------------------------------------------------------------------------------

  /** A query never fails and always sees this table. */
  function Unchanging(table: Table): Database {
    (k: nat) => Some(table)
  }

  lemma {:induction false} WalkCompletes(table: Table, listId: nat, k: nat, cursor: Option<nat>, p: Progress, n: nat)
    ensures Walk(Unchanging(table), listId, k, cursor, p, n).ok
    decreases cursor.None?, if cursor.Some? then cursor.value else 0
  {
    var page := NextPage(table, listId, cursor);
    PageAdvances(table, listId, cursor);
    if page.cursor.Some? {
      var n' := n + |Ids(page.items)|;
      WalkCompletes(table, listId, k + 1, page.cursor, AfterPage(p, page, n'), n');
      hide NextPage, Ids, AfterPage;
    }
  }

  lemma {:induction false} SelectAll(table: Table, listId: nat)
    requires forall r <- table :: r.listId == listId && r.status == Confirmed
    ensures Select(table, listId, None) == table
  {
    if table != [] {
      SelectAll(table[..|table| - 1], listId);
      assert table == table[..|table| - 1] + [table[|table| - 1]];
    }
  }

  /** The rows on both sides of a page break of the whole order share a millisecond. */
  ghost predicate TieAt(all: seq<Row>, j: nat) {
    0 < j < |all| && j % BATCH_SIZE == 0 && Ms(all[j - 1].createdAt) == Ms(all[j].createdAt)
  }

  /** The page that begins with the j-th row of the order. */
  lemma PageAt(table: Table, listId: nat, cursor: Option<nat>, j: nat)
    requires var all := Ordered(table, listId, None); j <= |all| && Ordered(table, listId, cursor) == all[j..]
    ensures
      var all, page := Ordered(table, listId, None), NextPage(table, listId, cursor);
      if j + BATCH_SIZE < |all|
      then page.items == all[j..j + BATCH_SIZE] && page.cursor == Some(Ms(all[j + BATCH_SIZE - 1].createdAt))
      else page.items == all[j..] && page.cursor == None
  {
    var rest := Ordered(table, listId, None)[j..];
    if |rest| > BATCH_SIZE {
      assert rest[..BATCH_SIZE + 1][..BATCH_SIZE] == rest[..BATCH_SIZE];
    }
  }

  lemma NoTieDescends(all: seq<Row>, j: nat)
    requires Sorted(all, NewestFirst()) && 0 < j < |all| && j % BATCH_SIZE == 0 && !TieAt(all, j)
    ensures Ms(all[j].createdAt) < Ms(all[j - 1].createdAt)
  {
    assert NewestFirst()(all[j - 1]) <= NewestFirst()(all[j]);
  }

  /** Without a tie the next page begins where this one ends. */
  lemma NextPageAt(table: Table, listId: nat, cursor: Option<nat>, j: nat)
    requires var all := Ordered(table, listId, None);
             j + BATCH_SIZE < |all| && Ordered(table, listId, cursor) == all[j..] && j % BATCH_SIZE == 0
    requires !TieAt(Ordered(table, listId, None), j + BATCH_SIZE)
    ensures Ordered(table, listId, NextPage(table, listId, cursor).cursor)
            == Ordered(table, listId, None)[j + BATCH_SIZE..]
  {
    var all, next := Ordered(table, listId, None), j + BATCH_SIZE;
    PageAt(table, listId, cursor, j);
    OrderedFacts(table, listId, None);
    NoTieDescends(all, next);
    hide *;
    OrderedFrom(table, listId, Ms(all[next - 1].createdAt), next);
  }

  lemma TieIsAhead(all: seq<Row>, j: nat, t: nat)
    requires TieAt(all, t) && j < t && j % BATCH_SIZE == 0
    ensures j < j + BATCH_SIZE <= t < |all| && (j + BATCH_SIZE) % BATCH_SIZE == 0
  {
  }

  /** One page of an unchanging table, as Skipped sees it. */
  lemma SkippedNext(table: Table, listId: nat, k: nat, cursor: Option<nat>, m: Row)
    ensures var page := NextPage(table, listId, cursor);
            Skipped(Unchanging(table), listId, k, cursor, m)
            <==> page.cursor.Some? && ((page.cursor.value == Ms(m.createdAt) && m !in page.items)
                                       || Skipped(Unchanging(table), listId, k + 1, page.cursor, m))
  {
    hide NextPage;
  }

  /** The row after a tied page break is not on the page before it. */
  lemma TieSkips(table: Table, listId: nat, cursor: Option<nat>, j: nat)
    requires UniqueIds(table)
    requires var all := Ordered(table, listId, None);
             && j + BATCH_SIZE < |all| && Ordered(table, listId, cursor) == all[j..] && TieAt(all, j + BATCH_SIZE)
    ensures var m, page := Ordered(table, listId, None)[j + BATCH_SIZE], NextPage(table, listId, cursor);
            page.cursor == Some(Ms(m.createdAt)) && m !in page.items
  {
    var all, next := Ordered(table, listId, None), j + BATCH_SIZE;
    RowComesOnce(table, listId, j, next);
    hide Ordered;
    PageAt(table, listId, cursor, j);
    hide NextPage;
  }

  lemma RowComesOnce(table: Table, listId: nat, j: nat, next: nat)
    requires UniqueIds(table) && j <= next < |Ordered(table, listId, None)|
    ensures var all := Ordered(table, listId, None); all[next] !in all[j..next]
  {
    var all := Ordered(table, listId, None);
    forall i | 0 <= i < |all[j..next]| ensures all[j..next][i] != all[next] {
      OrderedIsUnique(table, listId, None, j + i, next);
    }
    hide Ordered;
  }

  /** The row after the first tie is skipped. */
  lemma {:induction false} FirstTieSkips(table: Table, listId: nat, k: nat, cursor: Option<nat>, j: nat, t: nat)
    requires UniqueIds(table) && j < t && j % BATCH_SIZE == 0
    requires var all := Ordered(table, listId, None);
             && TieAt(all, t) && (forall i | j < i < t :: !TieAt(all, i)) && Ordered(table, listId, cursor) == all[j..]
    ensures Skipped(Unchanging(table), listId, k, cursor, Ordered(table, listId, None)[t])
    decreases t - j
  {
    hide *;
    var all, next := Ordered(table, listId, None), j + BATCH_SIZE;
    TieIsAhead(all, j, t);
    PageAt(table, listId, cursor, j);
    SkippedNext(table, listId, k, cursor, all[t]);
    if next == t {
      TieSkips(table, listId, cursor, j);
    } else {
      NextPageAt(table, listId, cursor, j);
      FirstTieSkips(table, listId, k + 1, NextPage(table, listId, cursor).cursor, next, t);
    }
  }

  lemma TieSkipsNot(table: Table, listId: nat, cursor: Option<nat>, j: nat, i: nat)
    requires var all := Ordered(table, listId, None);
             && i < |all| && j + BATCH_SIZE < |all| && j % BATCH_SIZE == 0 && Ordered(table, listId, cursor) == all[j..]
             && forall t :: !TieAt(all, t)
    ensures var m, page := Ordered(table, listId, None)[i], NextPage(table, listId, cursor);
            !(page.cursor.Some? && page.cursor.value == Ms(m.createdAt) && m !in page.items)
  {
    var all, next := Ordered(table, listId, None), j + BATCH_SIZE;
    OrderedFacts(table, listId, None);
    TieSplits(all, j, next, i);
    RowsBetween(all, j, next, i);
    hide Ordered, TieAt, Sorted;
    PageAt(table, listId, cursor, j);
    hide NextPage;
  }

  lemma RowsBetween(all: seq<Row>, j: nat, next: nat, i: nat)
    requires j <= next <= |all| && i < |all|
    ensures j <= i < next ==> all[i] in all[j..next]
  {
    if j <= i < next {
      assert all[j..next][i - j] == all[i];
    }
  }

  /** Without a tie no member is skipped. */
  lemma {:induction false} NoTieSkipsNobody(
    table: Table, listId: nat, k: nat, cursor: Option<nat>, j: nat, i: nat)
    requires var all := Ordered(table, listId, None);
             && j <= |all| && i < |all| && j % BATCH_SIZE == 0 && Ordered(table, listId, cursor) == all[j..]
             && forall t :: !TieAt(all, t)
    ensures !Skipped(Unchanging(table), listId, k, cursor, Ordered(table, listId, None)[i])
    decreases |Ordered(table, listId, None)| - j
  {
    var all := Ordered(table, listId, None);
    PageAt(table, listId, cursor, j);
    SkippedNext(table, listId, k, cursor, all[i]);
    hide Ordered, NextPage, Skipped, TieAt;
    if j + BATCH_SIZE < |all| {
      NextPageAt(table, listId, cursor, j);
      TieSkipsNot(table, listId, cursor, j, i);
      NoTieSkipsNobody(table, listId, k + 1, NextPage(table, listId, cursor).cursor, j + BATCH_SIZE, i);
    }
  }

  lemma TieSplits(all: seq<Row>, j: nat, next: nat, i: nat)
    requires Sorted(all, NewestFirst()) && j < next < |all| && i < |all| && j % BATCH_SIZE == next % BATCH_SIZE == 0
    requires forall t :: !TieAt(all, t)
    ensures i < j || next <= i ==> Ms(all[i].createdAt) != Ms(all[next - 1].createdAt)
  {
    assert !TieAt(all, j) && !TieAt(all, next);
    var key := NewestFirst();
    if i < j {
      assert key(all[i]) <= key(all[j - 1]) && key(all[j - 1]) <= key(all[j]) && key(all[j]) <= key(all[next - 1]);
    } else if next <= i {
      assert key(all[next - 1]) <= key(all[next]) && key(all[next]) <= key(all[i]);
    }
  }

  /** A broadcast over the unchanging table sends to every confirmed member of the list. */
  ghost predicate EveryoneReached(table: Table, listId: nat, p: Progress) {
    forall m <- table | m.listId == listId && m.status == Confirmed ::
      m.id in Walk(Unchanging(table), listId, 0, None, p, 0).sent
  }

  lemma UnskippedIsReached(table: Table, listId: nat, p: Progress, m: Row)
    requires UniqueIds(table) && m in table && m.listId == listId && m.status == Confirmed
    ensures m.id in Walk(Unchanging(table), listId, 0, None, p, 0).sent
            <==> !Skipped(Unchanging(table), listId, 0, None, m)
  {
    var birth := BirthIn(table);
    WalkCompletes(table, listId, 0, None, p, 0);
    ReachedExact(Unchanging(table), birth, listId, 0, None, p, 0, m);
  }

  /** Of the members on both sides of the first tied page break the second one is never sent to. */
  lemma FirstTieIsMissed(table: Table, listId: nat, p: Progress, t: nat)
    requires var all := Ordered(table, listId, None);
             UniqueIds(table) && TieAt(all, t) && forall i | 0 < i < t :: !TieAt(all, i)
    ensures Ordered(table, listId, None)[t].id !in Walk(Unchanging(table), listId, 0, None, p, 0).sent
    ensures !EveryoneReached(table, listId, p)
  {
    var m := Ordered(table, listId, None)[t];
    OrderedFacts(table, listId, None);
    FirstTieSkips(table, listId, 0, None, 0, t);
    hide Ordered, Walk, Skipped;
    UnskippedIsReached(table, listId, p, m);
  }

  lemma NoTieBefore(all: seq<Row>, n: nat)
    requires n <= BATCH_SIZE
    ensures forall i | 0 < i < n :: !TieAt(all, i)
  {
  }

  lemma {:induction false} LeastTie(all: seq<Row>, t: nat) returns (first: nat)
    requires TieAt(all, t)
    ensures TieAt(all, first) && forall i | 0 < i < first :: !TieAt(all, i)
  {
    first := t;
    if i :| 0 < i < t && TieAt(all, i) {
      first := LeastTie(all, i);
    }
  }

  /**
  Over an unchanging table every confirmed member is sent to exactly when, in the order newest first, no page break, a
  multiple of a hundred, falls between two members of the same millisecond.
  */
  lemma EveryoneReachedExact(table: Table, listId: nat, p: Progress)
    requires UniqueIds(table)
    ensures EveryoneReached(table, listId, p) <==> forall j :: !TieAt(Ordered(table, listId, None), j)
  {
    var all := Ordered(table, listId, None);
    if t :| TieAt(all, t) {
      var first := LeastTie(all, t);
      FirstTieIsMissed(table, listId, p, first);
    } else {
      forall m <- table | m.listId == listId && m.status == Confirmed
        ensures m.id in Walk(Unchanging(table), listId, 0, None, p, 0).sent
      {
        OrderedFacts(table, listId, None);
        var i :| 0 <= i < |all| && all[i] == m;
        NoTieSkipsNobody(table, listId, 0, None, 0, i);
        UnskippedIsReached(table, listId, p, m);
      }
    }
  }

  lemma {:induction false} NoTieSendsInOrder(
    table: Table, listId: nat, k: nat, cursor: Option<nat>, p: Progress, n: nat, j: nat)
    requires var all := Ordered(table, listId, None);
             && j <= |all| && j % BATCH_SIZE == 0 && Ordered(table, listId, cursor) == all[j..]
             && forall t :: !TieAt(all, t)
    ensures Walk(Unchanging(table), listId, k, cursor, p, n).sent == Ids(Ordered(table, listId, None)[j..])
    decreases |Ordered(table, listId, None)| - j
  {
    hide *;
    var all, page, next := Ordered(table, listId, None), NextPage(table, listId, cursor), j + BATCH_SIZE;
    PageAt(table, listId, cursor, j);
    WalkOnward(table, listId, k, cursor, p, n);
    NextMultiple(j);
    if next < |all| {
      var n' := n + |Ids(page.items)|;
      NextPageAt(table, listId, cursor, j);
      NoTieSendsInOrder(table, listId, k + 1, page.cursor, AfterPage(p, page, n'), n', next);
      IdsSplit(all, j, next);
    }
  }

  lemma NextMultiple(j: nat)
    requires j % BATCH_SIZE == 0
    ensures j < j + BATCH_SIZE && (j + BATCH_SIZE) % BATCH_SIZE == 0
  {
  }

  /** One round over an unchanging table. */
  lemma WalkOnward(table: Table, listId: nat, k: nat, cursor: Option<nat>, p: Progress, n: nat)
    ensures
      var page := NextPage(table, listId, cursor);
      var ids, n' := Ids(page.items), n + |Ids(page.items)|;
      Walk(Unchanging(table), listId, k, cursor, p, n).sent ==
      if page.cursor.None? then ids
      else ids + Walk(Unchanging(table), listId, k + 1, page.cursor, AfterPage(p, page, n'), n').sent
  {
    WalkRound(Unchanging(table), listId, k, cursor, p, n);
    hide NextPage, Walk, AfterPage, Ids;
  }

  lemma IdsSplit(rows: seq<Row>, j: nat, next: nat)
    requires j <= next <= |rows|
    ensures Ids(rows[j..next]) + Ids(rows[next..]) == Ids(rows[j..])
  {
  }

  /** And where no page break is tied, the broadcast sends to the confirmed members in order, newest first. */
  lemma SendsInOrder(table: Table, listId: nat, p: Progress)
    requires forall j :: !TieAt(Ordered(table, listId, None), j)
    ensures Walk(Unchanging(table), listId, 0, None, p, 0).sent == Ids(Ordered(table, listId, None))
  {
    hide Ordered, Walk, TieAt, Ids;
    assert Ordered(table, listId, None)[0..] == Ordered(table, listId, None);
    NoTieSendsInOrder(table, listId, 0, None, p, 0, 0);
  }

  /** Confirmed members of one list, newest first. */
  ghost predicate Newest(table: Table, listId: nat) {
    && UniqueIds(table) && (forall r <- table :: r.listId == listId && r.status == Confirmed)
    && forall i, j | 0 <= i < j < |table| :: table[i].createdAt >= table[j].createdAt
  }

  lemma NewestIsOrdered(table: Table, listId: nat)
    requires Newest(table, listId)
    ensures UniqueIds(table) && Ordered(table, listId, None) == table
  {
    SelectAll(table, listId);
    SortBySorted(table, NewestFirst());
  }

  /**
  Whenever the hundredth and the hundred-and-first of more than a hundred confirmed members share a millisecond, a
  broadcast over the unchanging table completes and never sends to the latter.
  */
  lemma TiedMemberIsMissed(table: Table, listId: nat, p: Progress)
    requires Newest(table, listId) && |table| > BATCH_SIZE
    requires Ms(table[BATCH_SIZE - 1].createdAt) == Ms(table[BATCH_SIZE].createdAt)
    ensures var walk := Walk(Unchanging(table), listId, 0, None, p, 0); walk.ok && table[BATCH_SIZE].id !in walk.sent
  {
    assert TieAt(table, BATCH_SIZE);
    NewestIsOrdered(table, listId);
    WalkCompletes(table, listId, 0, None, p, 0);
    NoTieBefore(table, BATCH_SIZE);
    hide *;
    FirstTieIsMissed(table, listId, p, BATCH_SIZE);
  }

  /** The creation times of a table whose ids are unique. */
  lemma BirthIn(table: Table) returns (birth: nat -> nat)
    requires UniqueIds(table)
    ensures ConsistentDatabase(Unchanging(table), birth)
  {
    var births := map r | r in table :: r.id := r.createdAt;
    birth := (id: nat) => if id in births then births[id] else 0;
  }

  /** Members 5 ms apart, but for the last of 101, which is 400 microseconds older than the one before. */
  function Crowd(): Table {
    seq(101, i requires 0 <= i < 101 => Row(i, 0, Confirmed, if i < 100 then 1_000_500 - 5_000 * i else 505_100))
  }

  /**
  Distinct stored instants are not enough: a list of 101 members, no two created at the same instant, of which a
  completed broadcast misses one.
  */
  lemma SubMillisecondRowIsSkipped(p: Progress)
    ensures
      var table := Crowd();
      && (forall i, j | 0 <= i < j < |table| :: table[i].createdAt != table[j].createdAt)
      && var walk := Walk(Unchanging(table), 0, 0, None, p, 0); walk.ok && 100 !in walk.sent
  {
    var table := Crowd();
    TiedMemberIsMissed(table, 0, p);
  }
}
