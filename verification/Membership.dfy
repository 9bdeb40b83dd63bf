/**
List membership: rows of subscribers and lists, and the cached member count of each list.

Tokens, mail contents and the HTTP layer are not part of this model; whether a mail could be sent is a parameter.
*/
module Membership {
  import opened MemberStatus
  import opened Options
  import opened Sets

  const CONFIRM_TOKEN_EXPIRY_MS := 259200 * 1000

  datatype Row = Row(status: Status, createdAt: int, confirmedAt: Option<int>, unsubscribedAt: Option<int>)

  datatype List = List(single: bool, archived: bool, memberCount: int)

  datatype Key = Key(subscriber: string, list: string)

  /** The tables: lists by id, ids by slug (a unique column), and rows by subscriber and list (a unique pair). */
  datatype Db = Db(lists: map<string, List>, slugs: map<string, string>, rows: map<Key, Row>)

  /** Foreign keys: what slugs and rows refer to exists. */
  ghost predicate WellFormed(db: Db) {
    && (forall slug <- db.slugs :: db.slugs[slug] in db.lists)
    && (forall key <- db.rows :: key.list in db.lists)
  }

  // ---------------------------------------------------------------------------------------------
  // Repositories
  // ---------------------------------------------------------------------------------------------

  /** The list of that slug unless it is archived. */
  function FindBySlug(db: Db, slug: string): (r: Option<string>)
    requires WellFormed(db)
    ensures r.Some? ==> r.value in db.lists && !db.lists[r.value].archived
  {
    if slug in db.slugs && !db.lists[db.slugs[slug]].archived then Some(db.slugs[slug]) else None
  }

  function FindMember(db: Db, key: Key): Option<Row> {
    if key in db.rows then Some(db.rows[key]) else None
  }

  /** INSERT .. ON CONFLICT DO NOTHING */
  function InsertMember(db: Db, key: Key, now: int): Db {
    if key in db.rows then db else db.(rows := db.rows[key := Row(Unconfirmed, now, None, None)])
  }

  function SetConfirmed(db: Db, key: Key, now: int): Option<Db> {
    if key !in db.rows then None
    else Some(db.(rows := db.rows[key := db.rows[key].(status := Confirmed, confirmedAt := Some(now))]))
  }

  function SetUnsubscribed(db: Db, key: Key, now: int): Option<Db> {
    if key !in db.rows then None
    else Some(db.(rows := db.rows[key := db.rows[key].(status := Unsubscribed, unsubscribedAt := Some(now))]))
  }

  /** memberCount becomes GREATEST(0, memberCount + delta). */
  function AddToCount(db: Db, list: string, delta: int): Db {
    if list !in db.lists then db
    else
      var count := db.lists[list].memberCount + delta;
      db.(lists := db.lists[list := db.lists[list].(memberCount := if count > 0 then count else 0)])
  }

  predicate Expired(row: Row, cutoff: int) {
    row.status == Unconfirmed && row.createdAt < cutoff
  }

  function DeleteExpired(db: Db, cutoff: int): Db {
    db.(rows := map key <- db.rows | !Expired(db.rows[key], cutoff) :: db.rows[key])
  }

  // ---------------------------------------------------------------------------------------------
  // Counting confirmed rows
  // ---------------------------------------------------------------------------------------------

  function ConfirmedKeys(rows: map<Key, Row>, list: string): set<Key> {
    set key <- rows | key.list == list && rows[key].status == Confirmed
  }

  function One(b: bool): int {
    if b then 1 else 0
  }

  predicate IsConfirmed(rows: map<Key, Row>, key: Key) {
    key in rows && rows[key].status == Confirmed
  }

  lemma PutCounts(rows: map<Key, Row>, key: Key, row: Row, list: string)
    ensures |ConfirmedKeys(rows[key := row], list)| ==
            |ConfirmedKeys(rows, list)| + One(key.list == list && row.status == Confirmed)
            - One(key.list == list && IsConfirmed(rows, key))
  {
    var before, after := ConfirmedKeys(rows, list), ConfirmedKeys(rows[key := row], list);
    assert after - {key} == before - {key};
    assert |after| == |after - {key}| + One(key in after);
    assert |before| == |before - {key}| + One(key in before);
  }

  lemma DeleteCounts(db: Db, cutoff: int, list: string)
    ensures ConfirmedKeys(DeleteExpired(db, cutoff).rows, list) == ConfirmedKeys(db.rows, list)
  {
  }

  // ---------------------------------------------------------------------------------------------
  // Whole operations
  // ---------------------------------------------------------------------------------------------

  datatype Mail = NoSender | Sends | Fails

  datatype Op =
    | Subscribe(subscriber: string, slug: string, now: int, mail: Mail)
    | Confirm(key: Key, now: int) // the service
    | ConfirmByToken(key: Key, now: int) // the adapter behind the confirmation link
    | Unsubscribe(subscriber: string, slug: string, now: int)
    | CleanupExpired(now: int)
    | ArchiveList(list: string)
    | CreateList(list: string, slug: string, single: bool)

  datatype Outcome =
    | Subscribed(row: Row, created: bool)
    | Member(row: Row, already: bool)
    | ByToken(already: bool)
    | Deleted(count: nat)
    | Done
    | NotFound
    | MailFailed

  function AfterSubscribe(db: Db, key: Key, now: int, mail: Mail): (Db, Outcome)
    requires key.list in db.lists
  {
    if key in db.rows then (db, Subscribed(db.rows[key], false))
    else
      var inserted := InsertMember(db, key, now);
      if db.lists[key.list].single then
        var confirmed := SetConfirmed(inserted, key, now).value;
        (AddToCount(confirmed, key.list, 1), Subscribed(confirmed.rows[key], true))
      else (inserted, if mail == Fails then MailFailed else Subscribed(inserted.rows[key], true))
  }

  function AfterConfirm(db: Db, key: Key, now: int): Db {
    if key !in db.rows || IsConfirmed(db.rows, key) then db
    else AddToCount(SetConfirmed(db, key, now).value, key.list, 1)
  }

  function AfterUnsubscribe(db: Db, key: Key, now: int): Db {
    if key !in db.rows then db
    else
      var written := SetUnsubscribed(db, key, now).value;
      if IsConfirmed(db.rows, key) then AddToCount(written, key.list, -1) else written
  }

  function Do(db: Db, op: Op): (Db, Outcome)
    requires WellFormed(db)
  {
    match op
    case Subscribe(subscriber, slug, now, mail) =>
      (match FindBySlug(db, slug)
       case None => (db, NotFound)
       case Some(list) => AfterSubscribe(db, Key(subscriber, list), now, mail))
    case Confirm(key, now) =>
      var after := AfterConfirm(db, key, now);
      (after, if key !in db.rows then NotFound else Member(after.rows[key], IsConfirmed(db.rows, key)))
    case ConfirmByToken(key, now) =>
      (AfterConfirm(db, key, now), ByToken(IsConfirmed(db.rows, key)))
    case Unsubscribe(subscriber, slug, now) =>
      (match FindBySlug(db, slug)
       case None => (db, NotFound)
       case Some(list) =>
         var key := Key(subscriber, list);
         var after := AfterUnsubscribe(db, key, now);
         (after, if key !in db.rows then NotFound else Member(after.rows[key], false)))
    case CleanupExpired(now) =>
      var cutoff := now - CONFIRM_TOKEN_EXPIRY_MS;
      (DeleteExpired(db, cutoff), Deleted(|set key <- db.rows | Expired(db.rows[key], cutoff)|))
    case ArchiveList(list) =>
      (if list in db.lists then db.(lists := db.lists[list := db.lists[list].(archived := true)]) else db, Done)
    case CreateList(list, slug, single) =>
      (if list in db.lists || slug in db.slugs then db
       else db.(lists := db.lists[list := List(single, false, 0)], slugs := db.slugs[slug := list]), Done)
  }

  /** Nothing has changed but the row of this key and the count of its list, which went up or down by `delta`. */
  ghost predicate OnlyRowAndCount(before: Db, after: Db, key: Key, delta: int) {
    && after.slugs == before.slugs && after.lists.Keys == before.lists.Keys
    && (forall other | other != key :: other in after.rows <==> other in before.rows)
    && (forall other <- before.rows | other != key :: after.rows[other] == before.rows[other])
    && (forall list <- before.lists | list != key.list :: after.lists[list] == before.lists[list])
    && (key.list in before.lists ==>
          var old', new' := before.lists[key.list], after.lists[key.list];
          && new'.single == old'.single && new'.archived == old'.archived
          && new'.memberCount == if delta == 0 then old'.memberCount
                                 else if old'.memberCount + delta >= 0 then old'.memberCount + delta else 0)
  }

  /** A subscription to a list that is found and not archived. */
  lemma SubscribeSays(db: Db, subscriber: string, slug: string, now: int, mail: Mail)
    requires WellFormed(db)
    ensures
      var (after, outcome) := Do(db, Subscribe(subscriber, slug, now, mail));
      if slug !in db.slugs || db.lists[db.slugs[slug]].archived then after == db && outcome == NotFound
      else
        var key := Key(subscriber, db.slugs[slug]);
        if key in db.rows then after == db && outcome == Subscribed(db.rows[key], false)
        else
          var single := db.lists[key.list].single;
          var row := if single then Row(Confirmed, now, Some(now), None) else Row(Unconfirmed, now, None, None);
          && OnlyRowAndCount(db, after, key, One(single)) && key in after.rows && after.rows[key] == row
          && outcome == if !single && mail == Fails then MailFailed else Subscribed(row, true)
  {
  }

  /** A confirmation, by the service and by the link. */
  lemma ConfirmSays(db: Db, key: Key, now: int)
    requires WellFormed(db)
    ensures
      var (after, outcome) := Do(db, Confirm(key, now));
      var (afterToken, byToken) := Do(db, ConfirmByToken(key, now));
      && afterToken == after
      && if key !in db.rows then after == db && outcome == NotFound && byToken == ByToken(false)
         else if db.rows[key].status == Confirmed then
           after == db && outcome == Member(db.rows[key], true) && byToken == ByToken(true)
         else
           var row := Row(Confirmed, db.rows[key].createdAt, Some(now), db.rows[key].unsubscribedAt);
           && OnlyRowAndCount(db, after, key, 1) && key in after.rows && after.rows[key] == row
           && outcome == Member(row, false) && byToken == ByToken(false)
  {
  }

  lemma UnsubscribeSays(db: Db, subscriber: string, slug: string, now: int)
    requires WellFormed(db)
    ensures
      var (after, outcome) := Do(db, Unsubscribe(subscriber, slug, now));
      if slug !in db.slugs || db.lists[db.slugs[slug]].archived then after == db && outcome == NotFound
      else
        var key := Key(subscriber, db.slugs[slug]);
        if key !in db.rows then after == db && outcome == NotFound
        else
          var before := db.rows[key];
          var row := Row(Unsubscribed, before.createdAt, before.confirmedAt, Some(now));
          && OnlyRowAndCount(db, after, key, if before.status == Confirmed then -1 else 0)
          && key in after.rows && after.rows[key] == row && outcome == Member(row, false)
  {
  }

  /** Lists are archived and created without touching any row. */
  lemma ListsSay(db: Db, list: string, slug: string, single: bool)
    requires WellFormed(db)
    ensures
      var archived, created := Do(db, ArchiveList(list)).0, Do(db, CreateList(list, slug, single)).0;
      && archived.rows == created.rows == db.rows && archived.slugs == db.slugs
      && archived.lists.Keys == db.lists.Keys
      && (forall other <- db.lists ::
            var before := db.lists[other];
            archived.lists[other] == if other == list then List(before.single, true, before.memberCount) else before)
      && if list in db.lists || slug in db.slugs then created == db
         else created.lists == db.lists[list := List(single, false, 0)] && created.slugs == db.slugs[slug := list]
  {
  }

  /** The clean-up deletes the unconfirmed rows that are more than 72 hours old, and says how many. */
  lemma CleanupSays(db: Db, now: int)
    requires WellFormed(db)
    ensures
      var (after, outcome) := Do(db, CleanupExpired(now));
      && after.lists == db.lists && after.slugs == db.slugs
      && (forall key :: key in after.rows <==>
            key in db.rows && !(db.rows[key].status == Unconfirmed && now - db.rows[key].createdAt > 72 * 3_600_000))
      && (forall key <- after.rows :: after.rows[key] == db.rows[key])
      && outcome.Deleted? && outcome.count == |db.rows| - |after.rows|
  {
    DeletedCounts(db.rows, now - CONFIRM_TOKEN_EXPIRY_MS);
  }

  lemma DeletedCounts(rows: map<Key, Row>, cutoff: int)
    ensures |set key <- rows | Expired(rows[key], cutoff)|
            == |rows| - |map key <- rows | !Expired(rows[key], cutoff) :: rows[key]|
  {
    var gone := set key <- rows | Expired(rows[key], cutoff);
    var kept := map key <- rows | !Expired(rows[key], cutoff) :: rows[key];
    assert rows.Keys == kept.Keys + gone && kept.Keys !! gone;
    assert |rows.Keys| == |rows| && |kept.Keys| == |kept|;
  }

  /** The cached count of a list is the number of its confirmed rows. */
  ghost predicate Counts(db: Db, list: string) {
    list in db.lists ==> db.lists[list].memberCount == |ConfirmedKeys(db.rows, list)|
  }

  ghost predicate Agrees(db: Db) {
    WellFormed(db) && forall list :: Counts(db, list)
  }

  lemma UpdateCounts(db: Db, key: Key, row: Row, list: string)
    requires Counts(db, list) && key.list in db.lists
    requires row.status == Confirmed && !IsConfirmed(db.rows, key)
    ensures Counts(AddToCount(db.(rows := db.rows[key := row]), key.list, 1), list)
  {
    PutCounts(db.rows, key, row, list);
  }

  lemma DropCounts(db: Db, key: Key, row: Row, list: string)
    requires Counts(db, list) && Counts(db, key.list) && key.list in db.lists
    requires row.status == Unsubscribed && IsConfirmed(db.rows, key)
    ensures Counts(AddToCount(db.(rows := db.rows[key := row]), key.list, -1), list)
  {
    PutCounts(db.rows, key, row, list);
    ClampIsIdle(db, key);
  }

  /** Where the counts agree, a confirmed row leaves at least one to subtract from: the clamp at zero does not act. */
  lemma ClampIsIdle(db: Db, key: Key)
    requires Counts(db, key.list) && key.list in db.lists && IsConfirmed(db.rows, key)
    ensures db.lists[key.list].memberCount >= 1
    ensures AddToCount(db, key.list, -1).lists[key.list].memberCount == db.lists[key.list].memberCount - 1
  {
    assert key in ConfirmedKeys(db.rows, key.list);
  }

  lemma KeepCounts(db: Db, key: Key, row: Row, list: string)
    requires Counts(db, list) && row.status != Confirmed && !IsConfirmed(db.rows, key)
    ensures Counts(db.(rows := db.rows[key := row]), list)
  {
    PutCounts(db.rows, key, row, list);
  }

  lemma SubscribeKeepsCounts(db: Db, key: Key, now: int, mail: Mail, list: string)
    requires Counts(db, list) && key.list in db.lists
    ensures Counts(AfterSubscribe(db, key, now, mail).0, list)
  {
    if key !in db.rows {
      if db.lists[key.list].single {
        var row := Row(Confirmed, now, Some(now), None);
        assert db.rows[key := Row(Unconfirmed, now, None, None)][key := row] == db.rows[key := row];
        UpdateCounts(db, key, row, list);
      } else {
        KeepCounts(db, key, Row(Unconfirmed, now, None, None), list);
      }
    }
  }

  lemma ConfirmKeepsCounts(db: Db, key: Key, now: int, list: string)
    requires Counts(db, list) && (key in db.rows ==> key.list in db.lists)
    ensures Counts(AfterConfirm(db, key, now), list)
  {
    if key in db.rows && !IsConfirmed(db.rows, key) {
      UpdateCounts(db, key, db.rows[key].(status := Confirmed, confirmedAt := Some(now)), list);
    }
  }

  lemma UnsubscribeKeepsCounts(db: Db, key: Key, now: int, list: string)
    requires Counts(db, list) && Counts(db, key.list) && (key in db.rows ==> key.list in db.lists)
    ensures Counts(AfterUnsubscribe(db, key, now), list)
  {
    if key in db.rows {
      var row := db.rows[key].(status := Unsubscribed, unsubscribedAt := Some(now));
      if IsConfirmed(db.rows, key) {
        DropCounts(db, key, row, list);
      } else {
        KeepCounts(db, key, row, list);
      }
    }
  }

  lemma NewListIsEmpty(db: Db, list: string)
    requires WellFormed(db) && list !in db.lists
    ensures ConfirmedKeys(db.rows, list) == {}
  {
  }

  lemma DoKeepsCounts(db: Db, op: Op, list: string)
    requires Agrees(db)
    ensures Counts(Do(db, op).0, list)
  {
    assert Counts(db, list);
    match op
    case Subscribe(subscriber, slug, now, mail) =>
      if FindBySlug(db, slug).Some? {
        SubscribeKeepsCounts(db, Key(subscriber, FindBySlug(db, slug).value), now, mail, list);
      }
    case Confirm(key, now) => ConfirmKeepsCounts(db, key, now, list);
    case ConfirmByToken(key, now) => ConfirmKeepsCounts(db, key, now, list);
    case Unsubscribe(subscriber, slug, now) =>
      if FindBySlug(db, slug).Some? {
        var key := Key(subscriber, FindBySlug(db, slug).value);
        assert Counts(db, key.list);
        UnsubscribeKeepsCounts(db, key, now, list);
      }
    case CleanupExpired(now) => DeleteCounts(db, now - CONFIRM_TOKEN_EXPIRY_MS, list);
    case ArchiveList(_) =>
    case CreateList(other, _, _) =>
      if other !in db.lists {
        NewListIsEmpty(db, other);
      }
  }

  lemma DoKeepsWellFormed(db: Db, op: Op)
    requires WellFormed(db)
    ensures WellFormed(Do(db, op).0)
  {
  }

  function Run(db: Db, ops: seq<Op>): Db
    requires WellFormed(db)
    decreases ops
  {
    if ops == [] then db
    else
      DoKeepsWellFormed(db, ops[0]);
      Run(Do(db, ops[0]).0, ops[1..])
  }

  /** Over every sequence of whole operations each cached count stays the number of confirmed rows. */
  lemma {:induction false} RunKeepsCounts(db: Db, ops: seq<Op>)
    requires Agrees(db)
    ensures Agrees(Run(db, ops))
    decreases ops
  {
    if ops == [] {
    } else {
      DoKeepsWellFormed(db, ops[0]);
      hide Counts;
      forall list ensures Counts(Do(db, ops[0]).0, list) {
        DoKeepsCounts(db, ops[0], list);
      }
      RunKeepsCounts(Do(db, ops[0]).0, ops[1..]);
    }
  }

  /** The row left `unconfirmed` behind and is the same membership. */
  ghost predicate Settled(before: map<Key, Row>, after: map<Key, Row>, key: Key) {
    key in before && before[key].status != Unconfirmed ==>
      key in after && after[key].status != Unconfirmed && after[key].createdAt == before[key].createdAt
  }

  /** Over every sequence of operations no row returns to `unconfirmed`, and none but unconfirmed rows disappear. */
  lemma {:induction false} RunKeepsSettled(db: Db, ops: seq<Op>, key: Key)
    requires WellFormed(db)
    ensures Settled(db.rows, Run(db, ops).rows, key)
    decreases ops
  {
    if ops != [] {
      DoKeepsWellFormed(db, ops[0]);
      assert Settled(db.rows, Do(db, ops[0]).0.rows, key);
      hide Do;
      RunKeepsSettled(Do(db, ops[0]).0, ops[1..], key);
    }
  }

  // ---------------------------------------------------------------------------------------------
  // Interleaved operations
  // ---------------------------------------------------------------------------------------------

  /** Where a call stands: its next repository call. */
  datatype Call = Confirming(key: Key) | Unsubscribing(key: Key, wasConfirmed: bool) | Adding(key: Key, delta: int)

  datatype State = State(db: Db, calls: map<nat, Call>)

  datatype Step =
    | BeginSubscribe(call: nat, key: Key, now: int) // insert the row
    | BeginConfirm(call: nat, key: Key) // read the row
    | BeginUnsubscribe(call: nat, key: Key) // read the row
    | Write(call: nat, now: int) // write the status
    | Add(call: nat) // change the count
    | Cut(call: nat) // the process dies, or the next repository call throws
    | Cleanup(now: int)

  predicate Enabled(s: State, step: Step) {
    match step
    case BeginSubscribe(call, key, _) => call !in s.calls && key.list in s.db.lists
    case BeginConfirm(call, key) => call !in s.calls && key.list in s.db.lists
    case BeginUnsubscribe(call, key) => call !in s.calls && key.list in s.db.lists
    case Write(call, _) => call in s.calls && !s.calls[call].Adding?
    case Add(call) => call in s.calls && s.calls[call].Adding? && s.calls[call].key.list in s.db.lists
    case Cut(call) => call in s.calls
    case Cleanup(_) => true
  }

  function Began(s: State, call: nat, pc: Option<Call>): State {
    if pc.None? then s else s.(calls := s.calls[call := pc.value])
  }

  function Ended(s: State, call: nat): State {
    s.(calls := s.calls - {call})
  }

  /** A write goes by what the call read before; it fails when the row has gone. */
  function AfterWrite(s: State, call: nat, now: int): State
    requires Enabled(s, Write(call, now))
  {
    match s.calls[call]
    case Confirming(key) =>
      (match SetConfirmed(s.db, key, now)
       case None => Ended(s, call)
       case Some(db) => State(db, s.calls[call := Adding(key, 1)]))
    case Unsubscribing(key, wasConfirmed) =>
      (match SetUnsubscribed(s.db, key, now)
       case None => Ended(s, call)
       case Some(db) =>
         if wasConfirmed then State(db, s.calls[call := Adding(key, -1)]) else Ended(s.(db := db), call))
  }

  function Next(s: State, step: Step): State
    requires Enabled(s, step)
  {
    match step
    case BeginSubscribe(call, key, now) =>
      Began(s.(db := InsertMember(s.db, key, now)), call,
            if key !in s.db.rows && s.db.lists[key.list].single then Some(Confirming(key)) else None)
    case BeginConfirm(call, key) =>
      Began(s, call, if key in s.db.rows && !IsConfirmed(s.db.rows, key) then Some(Confirming(key)) else None)
    case BeginUnsubscribe(call, key) => Began(s, call, Some(Unsubscribing(key, IsConfirmed(s.db.rows, key))))
    case Write(call, now) => AfterWrite(s, call, now)
    case Add(call) => Ended(s.(db := AddToCount(s.db, s.calls[call].key.list, s.calls[call].delta)), call)
    case Cut(call) => Ended(s, call)
    case Cleanup(now) => s.(db := DeleteExpired(s.db, now - CONFIRM_TOKEN_EXPIRY_MS))
  }

  /** Whether a call has still to add this delta to this list's count. */
  predicate Adds(pc: Call, list: string, delta: int) {
    pc.Adding? && pc.key.list == list && pc.delta == delta
  }

  function Deltas(calls: map<nat, Call>, list: string, delta: int): set<nat> {
    set call <- calls | Adds(calls[call], list, delta)
  }

  /** The count, with what calls under way will still add and take, less the confirmed rows. */
  function Drift(s: State, list: string): int
    requires list in s.db.lists
  {
    s.db.lists[list].memberCount + |Deltas(s.calls, list, 1)| - |Deltas(s.calls, list, -1)|
    - |ConfirmedKeys(s.db.rows, list)|
  }

  /**
  What a step puts the count off by: a write that no longer finds what its call read, a decrement held at 0, or a call
  that ends between its status write and its change of the count.
  */
  function Slip(s: State, step: Step, list: string): int
    requires Enabled(s, step) && list in s.db.lists
  {
    match step
    case Write(call, _) =>
      var pc := s.calls[call];
      if pc.key.list != list || pc.key !in s.db.rows then 0
      else if pc.Confirming? then One(IsConfirmed(s.db.rows, pc.key))
      else One(IsConfirmed(s.db.rows, pc.key)) - One(pc.wasConfirmed)
    case Add(call) => One(Adds(s.calls[call], list, -1) && s.db.lists[list].memberCount == 0)
    case Cut(call) => One(Adds(s.calls[call], list, -1)) - One(Adds(s.calls[call], list, 1))
    case _ => 0
  }

  ghost predicate Sane(s: State) {
    && (forall list <- s.db.lists :: s.db.lists[list].memberCount >= 0)
    && (forall call <- s.calls :: s.calls[call].Adding? ==> s.calls[call].delta in {1, -1})
  }

  lemma PutDeltas(calls: map<nat, Call>, call: nat, pc: Call, list: string, delta: int)
    ensures |Deltas(calls[call := pc], list, delta)| ==
            |Deltas(calls, list, delta)| + One(Adds(pc, list, delta))
            - One(call in calls && Adds(calls[call], list, delta))
  {
    var before, after := Deltas(calls, list, delta), Deltas(calls[call := pc], list, delta);
    assert after - {call} == before - {call};
    assert |after| == |after - {call}| + One(call in after);
    assert |before| == |before - {call}| + One(call in before);
  }

  lemma DropDeltas(calls: map<nat, Call>, call: nat, list: string, delta: int)
    requires call in calls
    ensures |Deltas(calls - {call}, list, delta)| ==
            |Deltas(calls, list, delta)| - One(Adds(calls[call], list, delta))
  {
    var before, after := Deltas(calls, list, delta), Deltas(calls - {call}, list, delta);
    assert after == before - {call};
  }

  lemma StepKeepsSane(s: State, step: Step)
    requires Sane(s) && Enabled(s, step)
    ensures Sane(Next(s, step)) && Next(s, step).db.lists.Keys == s.db.lists.Keys
  {
  }

  lemma BeginDrift(s: State, step: Step, list: string)
    requires Sane(s) && Enabled(s, step) && list in s.db.lists
    requires step.BeginSubscribe? || step.BeginConfirm? || step.BeginUnsubscribe?
    ensures Drift(Next(s, step), list) == Drift(s, list)
  {
    var t := Next(s, step);
    if step.BeginSubscribe? && step.key !in s.db.rows {
      PutCounts(s.db.rows, step.key, Row(Unconfirmed, step.now, None, None), list);
    }
    if t.calls != s.calls {
      PutDeltas(s.calls, step.call, t.calls[step.call], list, 1);
      PutDeltas(s.calls, step.call, t.calls[step.call], list, -1);
    }
  }

  lemma WriteDrift(s: State, call: nat, now: int, list: string)
    requires Sane(s) && Enabled(s, Write(call, now)) && list in s.db.lists
    ensures Drift(Next(s, Write(call, now)), list) == Drift(s, list) + Slip(s, Write(call, now), list)
  {
    var t := Next(s, Write(call, now));
    var key := s.calls[call].key;
    if key in s.db.rows {
      PutCounts(s.db.rows, key, t.db.rows[key], list);
    }
    if call in t.calls {
      PutDeltas(s.calls, call, t.calls[call], list, 1);
      PutDeltas(s.calls, call, t.calls[call], list, -1);
    } else {
      DropDeltas(s.calls, call, list, 1);
      DropDeltas(s.calls, call, list, -1);
    }
  }

  lemma CutDrift(s: State, call: nat, list: string)
    requires Enabled(s, Cut(call)) && list in s.db.lists
    ensures Drift(Next(s, Cut(call)), list) == Drift(s, list) + Slip(s, Cut(call), list)
  {
    DropDeltas(s.calls, call, list, 1);
    DropDeltas(s.calls, call, list, -1);
  }

  lemma AddDrift(s: State, call: nat, list: string)
    requires Sane(s) && Enabled(s, Add(call)) && list in s.db.lists
    ensures Drift(Next(s, Add(call)), list) == Drift(s, list) + Slip(s, Add(call), list)
  {
    DropDeltas(s.calls, call, list, 1);
    DropDeltas(s.calls, call, list, -1);
  }

  lemma StepDrift(s: State, step: Step, list: string)
    requires Sane(s) && Enabled(s, step) && list in s.db.lists
    ensures Drift(Next(s, step), list) == Drift(s, list) + Slip(s, step, list)
  {
    match step
    case Write(call, now) => WriteDrift(s, call, now, list);
    case Add(call) => AddDrift(s, call, list);
    case Cut(call) => CutDrift(s, call, list);
    case Cleanup(now) => DeleteCounts(s.db, now - CONFIRM_TOKEN_EXPIRY_MS, list);
    case _ => BeginDrift(s, step, list);
  }

  /** The runs: every step is enabled. */
  ghost predicate IsRun(s: State, steps: seq<Step>)
    decreases steps
  {
    steps == [] || (Enabled(s, steps[0]) && IsRun(Next(s, steps[0]), steps[1..]))
  }

  function End(s: State, steps: seq<Step>): State
    requires IsRun(s, steps)
    decreases steps
  {
    if steps == [] then s else End(Next(s, steps[0]), steps[1..])
  }

  function Slips(s: State, steps: seq<Step>, list: string): int
    requires Sane(s) && IsRun(s, steps) && list in s.db.lists
    decreases steps
  {
    if steps == [] then 0
    else
      StepKeepsSane(s, steps[0]);
      Slip(s, steps[0], list) + Slips(Next(s, steps[0]), steps[1..], list)
  }

  /** In every interleaving the count drifts from the rows by exactly the slips. */
  lemma {:induction false} DriftIsSlips(s: State, steps: seq<Step>, list: string)
    requires Sane(s) && IsRun(s, steps) && list in s.db.lists
    ensures var t := End(s, steps); list in t.db.lists && Drift(t, list) == Drift(s, list) + Slips(s, steps, list)
    decreases steps
  {
    if steps != [] {
      StepKeepsSane(s, steps[0]);
      StepDrift(s, steps[0], list);
      hide Drift, Slip, Sane, Next, Enabled;
      DriftIsSlips(Next(s, steps[0]), steps[1..], list);
    }
  }

  /** From agreement, once every call has ended, count and rows agree exactly when the slips cancel out. */
  lemma AgreementExact(s: State, steps: seq<Step>, list: string)
    requires Sane(s) && IsRun(s, steps) && list in s.db.lists
    requires s.calls == map[] && Counts(s.db, list) && End(s, steps).calls == map[]
    ensures Counts(End(s, steps).db, list) <==> Slips(s, steps, list) == 0
  {
    DriftIsSlips(s, steps, list);
    hide IsRun, End, Slips;
  }

  lemma OneStep(s: State, step: Step, rest: seq<Step>, list: string)
    requires Sane(s) && Enabled(s, step) && IsRun(Next(s, step), rest) && list in s.db.lists
    ensures IsRun(s, [step] + rest) && End(s, [step] + rest) == End(Next(s, step), rest)
    ensures Sane(Next(s, step)) && list in Next(s, step).db.lists
    ensures Slips(s, [step] + rest, list) == Slip(s, step, list) + Slips(Next(s, step), rest, list)
  {
    StepKeepsSane(s, step);
    assert ([step] + rest)[1..] == rest;
    hide Next, Enabled, Sane, Slip;
  }

  /** Two calls left to change the count, one of them to add. */
  lemma LastTwoAdds(s: State, first: nat, second: nat, key: Key, delta: int)
    requires Sane(s) && key.list in s.db.lists && first != second && delta in {1, -1}
    requires s.calls == map[first := Adding(key, delta), second := Adding(key, 1)]
    ensures
      var list := key.list;
      var steps := [Add(first)] + [Add(second)];
      && IsRun(s, steps) && End(s, steps).calls == map[]
      && Slips(s, steps, list) == if delta == -1 && s.db.lists[list].memberCount == 0 then 1 else 0
  {
    var s1 := Next(s, Add(first));
    StepKeepsSane(s, Add(first));
    assert s1.calls == map[second := Adding(key, 1)];
    var s2 := Next(s1, Add(second));
    assert s2.calls == map[];
    OneStep(s1, Add(second), [], key.list);
    assert [Add(second)] + [] == [Add(second)];
    OneStep(s, Add(first), [Add(second)], key.list);
  }

  lemma TwoBegin(s: State, key: Key)
    requires s.calls == map[] && key.list in s.db.lists && key in s.db.rows && !IsConfirmed(s.db.rows, key)
    ensures Enabled(s, BeginConfirm(0, key)) && Enabled(Next(s, BeginConfirm(0, key)), BeginConfirm(1, key))
    ensures Next(Next(s, BeginConfirm(0, key)), BeginConfirm(1, key)) ==
            State(s.db, map[0 := Confirming(key), 1 := Confirming(key)])
  {
  }

  lemma TwoWrite(s: State, key: Key, now: int)
    requires s.calls == map[0 := Confirming(key), 1 := Confirming(key)] && key.list in s.db.lists
    requires key in s.db.rows && !IsConfirmed(s.db.rows, key)
    ensures Enabled(s, Write(0, now)) && Enabled(Next(s, Write(0, now)), Write(1, now))
    ensures Slip(s, Write(0, now), key.list) == 0 && Slip(Next(s, Write(0, now)), Write(1, now), key.list) == 1
    ensures var t := Next(Next(s, Write(0, now)), Write(1, now));
            t.calls == map[0 := Adding(key, 1), 1 := Adding(key, 1)] && t.db.lists == s.db.lists
  {
  }

  /** Two confirmations of one row that both read it before either writes: the count goes one above the rows. */
  lemma TwoConfirmsCountTwice(s: State, key: Key, now: int)
    requires Sane(s) && s.calls == map[] && key.list in s.db.lists && key in s.db.rows && !IsConfirmed(s.db.rows, key)
    ensures
      var steps := [BeginConfirm(0, key)] + ([BeginConfirm(1, key)] + ([Write(0, now)] + ([Write(1, now)] +
                   ([Add(0)] + [Add(1)]))));
      IsRun(s, steps) && Slips(s, steps, key.list) == 1 && End(s, steps).calls == map[]
  {
    var list := key.list;
    TwoBegin(s, key);
    var s1 := Next(s, BeginConfirm(0, key));
    var s2 := Next(s1, BeginConfirm(1, key));
    TwoWrite(s2, key, now);
    StepKeepsSane(s, BeginConfirm(0, key));
    assert Slip(s, BeginConfirm(0, key), list) == Slip(s1, BeginConfirm(1, key), list) == 0;
    hide *;
    var s3 := Next(s2, Write(0, now));
    StepKeepsSane(s1, BeginConfirm(1, key));
    StepKeepsSane(s2, Write(0, now));
    StepKeepsSane(s3, Write(1, now));
    LastTwoAdds(Next(s3, Write(1, now)), 0, 1, key, 1);
    var rest := [Add(0)] + [Add(1)];
    OneStep(s3, Write(1, now), rest, list);
    OneStep(s2, Write(0, now), [Write(1, now)] + rest, list);
    OneStep(s1, BeginConfirm(1, key), [Write(0, now)] + ([Write(1, now)] + rest), list);
    OneStep(s, BeginConfirm(0, key), [BeginConfirm(1, key)] + ([Write(0, now)] + ([Write(1, now)] + rest)), list);
  }

  lemma ConfirmThenUnsubscribe(s: State, key: Key, now: int)
    requires s.calls == map[] && key.list in s.db.lists && key in s.db.rows && !IsConfirmed(s.db.rows, key)
    ensures Enabled(s, BeginConfirm(0, key)) && Enabled(Next(s, BeginConfirm(0, key)), Write(0, now))
    ensures Slip(s, BeginConfirm(0, key), key.list) == Slip(Next(s, BeginConfirm(0, key)), Write(0, now), key.list) == 0
    ensures var t := Next(Next(s, BeginConfirm(0, key)), Write(0, now));
            && t.calls == map[0 := Adding(key, 1)] && t.db.lists == s.db.lists
            && IsConfirmed(t.db.rows, key) && Enabled(t, BeginUnsubscribe(1, key))
  {
  }

  lemma UnsubscribeConfirmed(s: State, key: Key, now: int)
    requires s.calls == map[0 := Adding(key, 1)] && key.list in s.db.lists && IsConfirmed(s.db.rows, key)
    ensures Enabled(s, BeginUnsubscribe(1, key)) && Enabled(Next(s, BeginUnsubscribe(1, key)), Write(1, now))
    ensures Slip(s, BeginUnsubscribe(1, key), key.list) == 0
    ensures Slip(Next(s, BeginUnsubscribe(1, key)), Write(1, now), key.list) == 0
    ensures var t := Next(Next(s, BeginUnsubscribe(1, key)), Write(1, now));
            t.calls == map[1 := Adding(key, -1), 0 := Adding(key, 1)] && t.db.lists == s.db.lists
  {
  }

  /** A decrement that overtakes the increment it answers is held at zero: the count goes one above the rows. */
  lemma EarlyDecrementIsHeld(s: State, key: Key, now: int)
    requires Sane(s) && s.calls == map[] && key.list in s.db.lists && key in s.db.rows && !IsConfirmed(s.db.rows, key)
    requires s.db.lists[key.list].memberCount == 0
    ensures
      var steps := [BeginConfirm(0, key)] + ([Write(0, now)] + ([BeginUnsubscribe(1, key)] + ([Write(1, now)] +
                   ([Add(1)] + [Add(0)]))));
      IsRun(s, steps) && Slips(s, steps, key.list) == 1 && End(s, steps).calls == map[]
  {
    hide *;
    var list := key.list;
    ConfirmThenUnsubscribe(s, key, now);
    var s1 := Next(s, BeginConfirm(0, key));
    var s2 := Next(s1, Write(0, now));
    UnsubscribeConfirmed(s2, key, now);
    var s3 := Next(s2, BeginUnsubscribe(1, key));
    StepKeepsSane(s, BeginConfirm(0, key));
    StepKeepsSane(s1, Write(0, now));
    StepKeepsSane(s2, BeginUnsubscribe(1, key));
    StepKeepsSane(s3, Write(1, now));
    LastTwoAdds(Next(s3, Write(1, now)), 1, 0, key, -1);
    var rest := [Add(1)] + [Add(0)];
    OneStep(s3, Write(1, now), rest, list);
    OneStep(s2, BeginUnsubscribe(1, key), [Write(1, now)] + rest, list);
    OneStep(s1, Write(0, now), [BeginUnsubscribe(1, key)] + ([Write(1, now)] + rest), list);
    OneStep(s, BeginConfirm(0, key), [Write(0, now)] + ([BeginUnsubscribe(1, key)] + ([Write(1, now)] + rest)), list);
  }

  /** Calls that nobody interrupts do, step by step, what the whole operations do. */
  lemma AloneIsConfirm(s: State, key: Key, now: int)
    requires WellFormed(s.db) && s.calls == map[] && key.list in s.db.lists
    ensures
      var s1 := Next(s, BeginConfirm(0, key));
      var t := if 0 in s1.calls then Next(Next(s1, Write(0, now)), Add(0)) else s1;
      t == State(Do(s.db, Confirm(key, now)).0, map[])
  {
    var none: map<nat, Call> := map[];
    var one, two := Confirming(key), Adding(key, 1);
    assert none[0 := one][0 := two] - {0} == none;
  }

  lemma AloneIsUnsubscribe(s: State, subscriber: string, slug: string, now: int)
    requires WellFormed(s.db) && s.calls == map[] && FindBySlug(s.db, slug).Some?
    ensures
      var key := Key(subscriber, FindBySlug(s.db, slug).value);
      var s1 := Next(Next(s, BeginUnsubscribe(0, key)), Write(0, now));
      var t := if 0 in s1.calls then Next(s1, Add(0)) else s1;
      t == State(Do(s.db, Unsubscribe(subscriber, slug, now)).0, map[])
  {
    var key := Key(subscriber, FindBySlug(s.db, slug).value);
    var none: map<nat, Call> := map[];
    var one, two := Unsubscribing(key, IsConfirmed(s.db.rows, key)), Adding(key, -1);
    assert none[0 := one][0 := two] - {0} == none && none[0 := one] - {0} == none;
  }

  lemma AloneIsCleanup(s: State, now: int)
    requires WellFormed(s.db)
    ensures Next(s, Cleanup(now)) == s.(db := Do(s.db, CleanupExpired(now)).0)
  {
  }

  lemma AloneIsSubscribe(s: State, subscriber: string, slug: string, now: int, mail: Mail)
    requires WellFormed(s.db) && s.calls == map[] && FindBySlug(s.db, slug).Some?
    ensures
      var key := Key(subscriber, FindBySlug(s.db, slug).value);
      var s1 := Next(s, BeginSubscribe(0, key, now));
      var t := if 0 in s1.calls then Next(Next(s1, Write(0, now)), Add(0)) else s1;
      t == State(Do(s.db, Subscribe(subscriber, slug, now, mail)).0, map[])
  {
    var key := Key(subscriber, FindBySlug(s.db, slug).value);
    var none: map<nat, Call> := map[];
    var one, two := Confirming(key), Adding(key, 1);
    assert none[0 := one][0 := two] - {0} == none;
  }

  // ---------------------------------------------------------------------------------------------
  // Calls on different rows
  // ---------------------------------------------------------------------------------------------

  /** A call begins on a row that no call under way is about, its last step included. */
  ghost predicate Alone(s: State, step: Step) {
    step.BeginSubscribe? || step.BeginConfirm? || step.BeginUnsubscribe? ==>
      forall call <- s.calls :: s.calls[call].key != step.key
  }

  ghost predicate RunIsSeparate(s: State, steps: seq<Step>)
    requires IsRun(s, steps)
    decreases steps
  {
    steps == [] || (Alone(s, steps[0]) && RunIsSeparate(Next(s, steps[0]), steps[1..]))
  }

  /** The row is still as the call has read or left it. */
  predicate RowFits(rows: map<Key, Row>, pc: Call) {
    match pc
    case Confirming(key) => !IsConfirmed(rows, key)
    case Unsubscribing(key, wasConfirmed) => wasConfirmed == IsConfirmed(rows, key)
    case Adding(key, delta) => (delta == 1) == IsConfirmed(rows, key)
  }

  ghost predicate DistinctKeys(calls: map<nat, Call>) {
    forall a <- calls, b <- calls | a != b :: calls[a].key != calls[b].key
  }

  ghost predicate Separate(s: State) {
    DistinctKeys(s.calls) && forall call <- s.calls :: RowFits(s.db.rows, s.calls[call])
  }

  /** Whether every other row keeps its standing in a step for this key. */
  ghost predicate OthersStand(before: map<Key, Row>, after: map<Key, Row>, key: Key) {
    forall k | k != key :: IsConfirmed(before, k) == IsConfirmed(after, k)
  }

  lemma PutSeparate(s: State, t: State, call: nat, pc: Call)
    requires Separate(s) && OthersStand(s.db.rows, t.db.rows, pc.key) && RowFits(t.db.rows, pc)
    requires forall other <- s.calls | other != call :: s.calls[other].key != pc.key
    requires t.calls == s.calls[call := pc]
    ensures Separate(t)
  {
    forall other <- t.calls ensures RowFits(t.db.rows, t.calls[other]) {
      if other != call {
        assert RowFits(s.db.rows, s.calls[other]);
      }
    }
  }

  lemma EndSeparate(s: State, t: State, call: nat)
    requires Separate(s) && call in s.calls && OthersStand(s.db.rows, t.db.rows, s.calls[call].key)
    requires t.calls == s.calls - {call}
    ensures Separate(t)
  {
    forall other <- t.calls ensures RowFits(t.db.rows, t.calls[other]) {
      assert RowFits(s.db.rows, s.calls[other]) && s.calls[other].key != s.calls[call].key;
    }
  }

  lemma SameSeparate(s: State, t: State, key: Key)
    requires Separate(s) && OthersStand(s.db.rows, t.db.rows, key) && t.calls == s.calls
    requires IsConfirmed(s.db.rows, key) == IsConfirmed(t.db.rows, key)
    ensures Separate(t)
  {
    forall other <- t.calls ensures RowFits(t.db.rows, t.calls[other]) {
      assert RowFits(s.db.rows, s.calls[other]);
    }
  }

  lemma StepKeepsSeparate(s: State, step: Step)
    requires Sane(s) && Separate(s) && Enabled(s, step) && Alone(s, step)
    ensures Separate(Next(s, step))
  {
    var t := Next(s, step);
    hide Separate, DistinctKeys, Sane;
    match step
    case Cleanup(now) => SameSeparate(s, t, Key("", ""));
    case Write(call, now) => WriteKeepsSeparate(s, call, now);
    case Add(call) => EndSeparate(s, t, call);
    case Cut(call) => EndSeparate(s, t, call);
    case BeginSubscribe(call, key, _) =>
      var more := key !in s.db.rows && s.db.lists[key.list].single;
      BeginKeepsSeparate(s, t, call, key, if more then Some(Confirming(key)) else None);
    case BeginConfirm(call, key) =>
      var more := key in s.db.rows && !IsConfirmed(s.db.rows, key);
      BeginKeepsSeparate(s, t, call, key, if more then Some(Confirming(key)) else None);
    case BeginUnsubscribe(call, key) =>
      BeginKeepsSeparate(s, t, call, key, Some(Unsubscribing(key, IsConfirmed(s.db.rows, key))));
  }

  /** A call that begins, and goes on with `pc` if it has more to do. */
  lemma BeginKeepsSeparate(s: State, t: State, call: nat, key: Key, pc: Option<Call>)
    requires Separate(s) && call !in s.calls && t.calls == Began(s, call, pc).calls
    requires OthersStand(s.db.rows, t.db.rows, key) && IsConfirmed(s.db.rows, key) == IsConfirmed(t.db.rows, key)
    requires forall other <- s.calls :: s.calls[other].key != key
    requires pc.Some? ==> pc.value.key == key && RowFits(t.db.rows, pc.value)
    ensures Separate(t)
  {
    hide Separate;
    if pc.Some? {
      PutSeparate(s, t, call, pc.value);
    } else {
      SameSeparate(s, t, key);
    }
  }

  lemma WriteKeepsSeparate(s: State, call: nat, now: int)
    requires Separate(s) && Enabled(s, Write(call, now))
    ensures Separate(Next(s, Write(call, now)))
  {
    var t := Next(s, Write(call, now));
    assert forall other <- s.calls | other != call :: s.calls[other].key != s.calls[call].key;
    hide Separate;
    if call in t.calls {
      PutSeparate(s, t, call, t.calls[call]);
    } else {
      EndSeparate(s, t, call);
    }
  }

  function KeysOf(calls: map<nat, Call>, some: set<nat>): set<Key>
    requires some <= calls.Keys
  {
    set call <- some :: calls[call].key
  }

  lemma {:induction false} DistinctKeysCount(calls: map<nat, Call>, some: set<nat>)
    requires DistinctKeys(calls) && some <= calls.Keys
    ensures |KeysOf(calls, some)| == |some|
  {
    if call :| call in some {
      DistinctKeysCount(calls, some - {call});
      assert KeysOf(calls, some) == KeysOf(calls, some - {call}) + {calls[call].key};
    }
  }

  /** Calls that have still to count a row have confirmed different ones. */
  lemma UncountedAreConfirmed(s: State, list: string)
    requires Separate(s)
    ensures |Deltas(s.calls, list, 1)| <= |ConfirmedKeys(s.db.rows, list)|
  {
    var some := Deltas(s.calls, list, 1);
    DistinctKeysCount(s.calls, some);
    forall key <- KeysOf(s.calls, some) ensures key in ConfirmedKeys(s.db.rows, list) {
      var call :| call in some && s.calls[call].key == key;
      assert RowFits(s.db.rows, s.calls[call]);
    }
    Subset(KeysOf(s.calls, some), ConfirmedKeys(s.db.rows, list));
  }

  /** A call of this list ends between its status write and its change of the count. */
  predicate CutsCount(s: State, step: Step, list: string) {
    step.Cut? && step.call in s.calls && s.calls[step.call].Adding? && s.calls[step.call].key.list == list
  }

  lemma SeparateStepSlips(s: State, step: Step, list: string)
    requires Sane(s) && Separate(s) && Enabled(s, step) && list in s.db.lists && Drift(s, list) == 0
    ensures Slip(s, step, list) == 0 <==> !CutsCount(s, step, list)
  {
    match step
    case Write(call, _) => assert RowFits(s.db.rows, s.calls[call]);
    case Add(call) =>
      UncountedAreConfirmed(s, list);
      if Adds(s.calls[call], list, -1) {
        assert call in Deltas(s.calls, list, -1);
      }
    case _ =>
  }

  /** No step of a run slips: no write is stale, the clamp holds nothing back, and no change of the count is cut. */
  ghost predicate NoStepSlips(s: State, steps: seq<Step>, list: string)
    requires Sane(s) && IsRun(s, steps) && list in s.db.lists
    decreases steps
  {
    steps == [] ||
    (StepKeepsSane(s, steps[0]); Slip(s, steps[0], list) == 0 && NoStepSlips(Next(s, steps[0]), steps[1..], list))
  }

  ghost predicate RunCutsCount(s: State, steps: seq<Step>, list: string)
    requires IsRun(s, steps)
    decreases steps
  {
    steps != [] && (CutsCount(s, steps[0], list) || RunCutsCount(Next(s, steps[0]), steps[1..], list))
  }

  /**
  Under every interleaving of calls on different rows, clean-ups included, no step slips exactly when no call is cut
  between its status write and its change of the count; then count and rows, if they agreed before, agree once every
  call has ended.
  */
  lemma {:induction false} SeparateCallsAgree(s: State, steps: seq<Step>, list: string)
    requires Sane(s) && IsRun(s, steps) && RunIsSeparate(s, steps)
    requires Separate(s) && list in s.db.lists && Drift(s, list) == 0
    ensures NoStepSlips(s, steps, list) <==> !RunCutsCount(s, steps, list)
    ensures var t := End(s, steps);
            !RunCutsCount(s, steps, list) ==>
              list in t.db.lists && Drift(t, list) == 0 && (t.calls == map[] ==> Counts(t.db, list))
    decreases steps
  {
    if steps != [] {
      StepKeepsSane(s, steps[0]);
      StepKeepsSeparate(s, steps[0]);
      SeparateStepSlips(s, steps[0], list);
      StepDrift(s, steps[0], list);
      hide Drift, Slip, Sane, Next, Enabled, Separate, Alone, CutsCount;
      if !CutsCount(s, steps[0], list) {
        SeparateCallsAgree(Next(s, steps[0]), steps[1..], list);
      }
    }
  }

  /** One confirmation that meets nobody and ends before its change of the count leaves the count one too low. */
  lemma OneCutDisagrees(s: State, key: Key, now: int)
    requires s.calls == map[] && key.list in s.db.lists && Counts(s.db, key.list)
    requires Sane(s) && key in s.db.rows && !IsConfirmed(s.db.rows, key)
    ensures
      var steps := [BeginConfirm(0, key)] + ([Write(0, now)] + [Cut(0)]);
      IsRun(s, steps) && RunIsSeparate(s, steps) && End(s, steps).calls == map[] && !Counts(End(s, steps).db, key.list)
  {
    var list := key.list;
    ConfirmThenUnsubscribe(s, key, now);
    var s1 := Next(s, BeginConfirm(0, key));
    var s2 := Next(s1, Write(0, now));
    StepKeepsSane(s, BeginConfirm(0, key));
    StepKeepsSane(s1, Write(0, now));
    var s3 := Next(s2, Cut(0));
    assert s3.calls == map[] && Slip(s2, Cut(0), list) == -1;
    assert Alone(s, BeginConfirm(0, key)) && Alone(s1, Write(0, now)) && Alone(s2, Cut(0));
    hide *;
    assert [Cut(0)] + [] == [Cut(0)];
    Nothing(s3, list);
    OneStep(s2, Cut(0), [], list);
    OneStep(s1, Write(0, now), [Cut(0)], list);
    OneStep(s, BeginConfirm(0, key), [Write(0, now)] + [Cut(0)], list);
    OneSeparateStep(s2, Cut(0), []);
    OneSeparateStep(s1, Write(0, now), [Cut(0)]);
    OneSeparateStep(s, BeginConfirm(0, key), [Write(0, now)] + [Cut(0)]);
    AgreementExact(s, [BeginConfirm(0, key)] + ([Write(0, now)] + [Cut(0)]), list);
  }

  lemma Nothing(s: State, list: string)
    requires Sane(s) && list in s.db.lists
    ensures IsRun(s, []) && RunIsSeparate(s, []) && End(s, []) == s && Slips(s, [], list) == 0
  {
  }

  lemma OneSeparateStep(s: State, step: Step, rest: seq<Step>)
    requires Enabled(s, step) && IsRun(Next(s, step), rest) && Alone(s, step) && RunIsSeparate(Next(s, step), rest)
    requires IsRun(s, [step] + rest)
    ensures RunIsSeparate(s, [step] + rest)
  {
    assert ([step] + rest)[1..] == rest;
    hide Next, Enabled, Alone;
  }

  /** No interleaving returns a row to `unconfirmed` or removes one that left it. */
  lemma {:induction false} InterleavingKeepsSettled(s: State, steps: seq<Step>, key: Key)
    requires IsRun(s, steps)
    ensures Settled(s.db.rows, End(s, steps).db.rows, key)
    decreases steps
  {
    if steps != [] {
      assert Settled(s.db.rows, Next(s, steps[0]).db.rows, key);
      hide Next, Enabled;
      InterleavingKeepsSettled(Next(s, steps[0]), steps[1..], key);
    }
  }

  // ---------------------------------------------------------------------------------------------
  // The services as objects
  // ---------------------------------------------------------------------------------------------

  /** The membership service and the confirmation adapter over the same tables. */
  class MembershipService {
    var db: Db

    constructor ()
      ensures db == Db(map[], map[], map[])
    {
      db := Db(map[], map[], map[]);
    }

    method Subscribe(subscriber: string, slug: string, now: int, mail: Mail) returns (outcome: Outcome)
      requires WellFormed(db)
      modifies this
      ensures (db, outcome) == Do(old(db), Op.Subscribe(subscriber, slug, now, mail))
    {
      var list := FindBySlug(db, slug);
      if list.None? {
        return NotFound;
      }
      var key := Key(subscriber, list.value);
      var created := key !in db.rows;
      db := InsertMember(db, key, now);
      if !created {
        return Subscribed(db.rows[key], false);
      }
      if db.lists[list.value].single {
        db := SetConfirmed(db, key, now).value;
        var confirmed := db.rows[key];
        db := AddToCount(db, list.value, 1);
        return Subscribed(confirmed, true);
      }
      if mail == Fails {
        return MailFailed;
      }
      return Subscribed(db.rows[key], true);
    }

    method Confirm(key: Key, now: int) returns (outcome: Outcome)
      requires WellFormed(db)
      modifies this
      ensures (db, outcome) == Do(old(db), Op.Confirm(key, now))
    {
      var existing := FindMember(db, key);
      if existing.None? {
        return NotFound;
      }
      if existing.value.status == Confirmed {
        return Member(existing.value, true);
      }
      db := SetConfirmed(db, key, now).value;
      var confirmed := db.rows[key];
      db := AddToCount(db, key.list, 1);
      return Member(confirmed, false);
    }

    method ConfirmMembership(key: Key, now: int) returns (outcome: Outcome)
      requires WellFormed(db)
      modifies this
      ensures (db, outcome) == Do(old(db), ConfirmByToken(key, now))
    {
      var existing := FindMember(db, key);
      if existing.None? {
        return ByToken(false);
      }
      if existing.value.status == Confirmed {
        return ByToken(true);
      }
      db := SetConfirmed(db, key, now).value;
      db := AddToCount(db, key.list, 1);
      return ByToken(false);
    }

    method Unsubscribe(subscriber: string, slug: string, now: int) returns (outcome: Outcome)
      requires WellFormed(db)
      modifies this
      ensures (db, outcome) == Do(old(db), Op.Unsubscribe(subscriber, slug, now))
    {
      var list := FindBySlug(db, slug);
      if list.None? {
        return NotFound;
      }
      var key := Key(subscriber, list.value);
      var existing := FindMember(db, key);
      var wasConfirmed := existing.Some? && existing.value.status == Confirmed;
      var written := SetUnsubscribed(db, key, now);
      if written.None? {
        return NotFound;
      }
      db := written.value;
      var member := db.rows[key];
      if wasConfirmed {
        db := AddToCount(db, list.value, -1);
      }
      return Member(member, false);
    }

    method CleanupExpired(now: int) returns (outcome: Outcome)
      requires WellFormed(db)
      modifies this
      ensures (db, outcome) == Do(old(db), Op.CleanupExpired(now))
    {
      var cutoff := now - CONFIRM_TOKEN_EXPIRY_MS;
      outcome := Deleted(|set key <- db.rows | Expired(db.rows[key], cutoff)|);
      db := DeleteExpired(db, cutoff);
    }
  }
}
