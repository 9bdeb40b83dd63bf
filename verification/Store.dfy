/** The client's notification list and unread count, and the optimistic mark-as-read that a failure takes back. */
module Store {
  import opened Options

  /** `readAt` is None for null and for undefined; `content` is everything else. */
  datatype Item = Item(id: string, readAt: Option<string>, content: string)

  datatype State = State(notifications: seq<Item>, unreadCount: int)

  /** An empty string counts as unread, as null does. */
  predicate Read(readAt: Option<string>) {
    readAt.Some? && readAt.value != ""
  }

  function Ids(items: seq<Item>): set<string> {
    set n <- items :: n.id
  }

  function Find(items: seq<Item>, id: string): (r: Option<Item>)
    ensures r.Some? <==> id in Ids(items)
    ensures r.Some? ==> r.value in items && r.value.id == id
  {
    if items == [] then None else if items[0].id == id then Some(items[0]) else Find(items[1..], id)
  }

  function WithReadAt(items: seq<Item>, id: string, readAt: Option<string>): seq<Item> {
    if items == [] then []
    else [if items[0].id == id then items[0].(readAt := readAt) else items[0]] + WithReadAt(items[1..], id, readAt)
  }

  function Without(items: seq<Item>, id: string): seq<Item> {
    if items == [] then []
    else (if items[0].id == id then [] else [items[0]]) + Without(items[1..], id)
  }

  function AllRead(items: seq<Item>, now: string): seq<Item> {
    if items == [] then []
    else [if Read(items[0].readAt) then items[0] else items[0].(readAt := Some(now))] + AllRead(items[1..], now)
  }

  function Unread(items: seq<Item>): nat {
    if items == [] then 0 else (if Read(items[0].readAt) then 0 else 1) + Unread(items[1..])
  }

  function Max0(n: int): int {
    if n > 0 then n else 0
  }

  datatype Op =
    | Arrive(id: string, content: string)
    | MarkRead(id: string, now: string)
    | MarkUnread(id: string)
    | Archive(id: string)
    | Revert(id: string, previous: Option<string>)
    | MarkAllRead(now: string)

  function Apply(s: State, op: Op): State {
    match op
    case Arrive(id, content) => State([Item(id, None, content)] + s.notifications, s.unreadCount + 1)
    case MarkRead(id, now) =>
      var found := Find(s.notifications, id);
      if found.None? || Read(found.value.readAt) then s
      else State(WithReadAt(s.notifications, id, Some(now)), Max0(s.unreadCount - 1))
    case MarkUnread(id) =>
      var found := Find(s.notifications, id);
      if found.None? || !Read(found.value.readAt) then s
      else State(WithReadAt(s.notifications, id, None), s.unreadCount + 1)
    case Archive(id) =>
      var found := Find(s.notifications, id);
      if found.None? then s
      else State(Without(s.notifications, id),
                 if Read(found.value.readAt) then s.unreadCount else Max0(s.unreadCount - 1))
    case Revert(id, previous) =>
      var items := WithReadAt(s.notifications, id, previous);
      State(items, Unread(items))
    case MarkAllRead(now) => State(AllRead(s.notifications, now), 0)
  }

  function Run(s: State, ops: seq<Op>): State
    decreases ops
  {
    if ops == [] then s else Run(Apply(s, ops[0]), ops[1..])
  }

  // ---------------------------------------------------------------------------------------------
  // The count and the list
  // ---------------------------------------------------------------------------------------------

  ghost predicate Unique(items: seq<Item>) {
    items == [] || (items[0].id !in Ids(items[1..]) && Unique(items[1..]))
  }

  function One(unread: bool): nat {
    if unread then 1 else 0
  }

  /** Whether the item of that id counts as unread. */
  predicate UnreadAt(items: seq<Item>, id: string) {
    Find(items, id).Some? && !Read(Find(items, id).value.readAt)
  }

  lemma {:induction false} WithReadAtFacts(items: seq<Item>, id: string, readAt: Option<string>)
    requires Unique(items)
    ensures var r := WithReadAt(items, id, readAt);
            && Unique(r) && Ids(r) == Ids(items)
            && Unread(r) == Unread(items) - One(UnreadAt(items, id)) + One(id in Ids(items) && !Read(readAt))
  {
    if items != [] {
      WithReadAtFacts(items[1..], id, readAt);
      IdsSplit(items);
      IdsSplit(WithReadAt(items, id, readAt));
    }
  }

  lemma IdsSplit(items: seq<Item>)
    requires items != []
    ensures Ids(items) == {items[0].id} + Ids(items[1..])
  {
    assert items == [items[0]] + items[1..];
  }

  /** What removing an id does to a list. */
  ghost predicate RemovedFrom(r: seq<Item>, items: seq<Item>, id: string) {
    && Unique(r) && Ids(r) == Ids(items) - {id}
    && Unread(r) == Unread(items) - One(UnreadAt(items, id))
  }

  lemma RemovedHead(items: seq<Item>)
    requires Unique(items) && items != [] && RemovedFrom(Without(items[1..], items[0].id), items[1..], items[0].id)
    ensures RemovedFrom(Without(items, items[0].id), items, items[0].id)
  {
    IdsSplit(items);
    assert [] + Without(items[1..], items[0].id) == Without(items[1..], items[0].id);
  }

  lemma RemovedTail(items: seq<Item>, id: string)
    requires Unique(items) && items != [] && items[0].id != id && RemovedFrom(Without(items[1..], id), items[1..], id)
    ensures RemovedFrom(Without(items, id), items, id)
  {
    var rest := Without(items[1..], id);
    var r := Without(items, id);
    IdsSplit(items);
    assert r == [items[0]] + rest && r[1..] == rest;
    IdsSplit(r);
    hide Without;
  }

  lemma {:induction false} WithoutFacts(items: seq<Item>, id: string)
    requires Unique(items)
    ensures RemovedFrom(Without(items, id), items, id)
  {
    if items != [] {
      WithoutFacts(items[1..], id);
      hide RemovedFrom, Without;
      if items[0].id == id {
        RemovedHead(items);
      } else {
        RemovedTail(items, id);
      }
    }
  }

  lemma {:induction false} AllReadFacts(items: seq<Item>, now: string)
    requires Unique(items) && now != ""
    ensures var r := AllRead(items, now); Unique(r) && Ids(r) == Ids(items) && Unread(r) == 0
  {
    if items != [] {
      AllReadFacts(items[1..], now);
      IdsSplit(items);
      IdsSplit(AllRead(items, now));
    }
  }

  /** What the server's count has beyond the unread items listed, on pages not fetched. */
  function Surplus(s: State): int {
    s.unreadCount - Unread(s.notifications)
  }

  ghost predicate Consistent(s: State) {
    Unique(s.notifications) && Surplus(s) >= 0
  }

  /** A notification arrives under an id that is not listed, and the clock never reads as an empty string. */
  ghost predicate Sound(s: State, op: Op) {
    && (op.Arrive? ==> op.id !in Ids(s.notifications))
    && (op.MarkRead? || op.MarkAllRead? ==> op.now != "")
  }

  ghost predicate RunIsSound(s: State, ops: seq<Op>)
    decreases ops
  {
    ops == [] || (Sound(s, ops[0]) && RunIsSound(Apply(s, ops[0]), ops[1..]))
  }

  /** Whether an operation sets the count from the list. */
  predicate Recounts(op: Op) {
    op.Revert? || op.MarkAllRead?
  }

  /** One operation keeps the surplus, so the clamp at zero never fires; a recount drops it. */
  lemma StepKeepsSurplus(s: State, op: Op)
    requires Consistent(s) && Sound(s, op)
    ensures var t := Apply(s, op); Consistent(t) && Surplus(t) == if Recounts(op) then 0 else Surplus(s)
  {
    match op
    case Arrive(id, content) => assert ([Item(id, None, content)] + s.notifications)[1..] == s.notifications;
    case MarkRead(id, now) => WithReadAtFacts(s.notifications, id, Some(now));
    case MarkUnread(id) => WithReadAtFacts(s.notifications, id, None);
    case Archive(id) => WithoutFacts(s.notifications, id);
    case Revert(id, previous) => WithReadAtFacts(s.notifications, id, previous);
    case MarkAllRead(now) => AllReadFacts(s.notifications, now);
  }

  /** Over every run: a count that agrees with the list keeps agreeing, and a surplus stays until something recounts. */
  lemma {:induction false} RunKeepsSurplus(s: State, ops: seq<Op>)
    requires Consistent(s) && RunIsSound(s, ops)
    ensures var t := Run(s, ops);
            Consistent(t) && Surplus(t) == if exists op <- ops :: Recounts(op) then 0 else Surplus(s)
    decreases ops
  {
    hide Consistent, Surplus, Sound, Apply, Recounts;
    if ops != [] {
      StepKeepsSurplus(s, ops[0]);
      RunKeepsSurplus(Apply(s, ops[0]), ops[1..]);
      assert ops == [ops[0]] + ops[1..];
    }
  }

  /** Two notifications under one unread id: marking them read takes one off the count and two off the list. */
  lemma DuplicateBreaksCount(s: State, id: string, content: string, now: string)
    requires Consistent(s) && UnreadAt(s.notifications, id) && now != ""
    ensures Surplus(Run(s, [Arrive(id, content), MarkRead(id, now)])) == Surplus(s) + 1
  {
    var item := Item(id, None, content);
    var s1 := Apply(s, Arrive(id, content));
    WithReadAtFacts(s.notifications, id, Some(now));
    assert s1.notifications[1..] == s.notifications;
    var r := WithReadAt(s1.notifications, id, Some(now));
    assert r == [item.(readAt := Some(now))] + WithReadAt(s.notifications, id, Some(now));
    assert r[1..] == WithReadAt(s.notifications, id, Some(now));
    var s2 := Apply(s1, MarkRead(id, now));
    var ops := [Arrive(id, content), MarkRead(id, now)];
    assert ops[1..] == [MarkRead(id, now)] && ops[1..][1..] == [];
    assert Run(s1, ops[1..]) == Run(s2, ops[1..][1..]) == s2;
    hide Unread, WithReadAt, Find, Ids, Unique;
    assert Unread(s1.notifications) == Unread(s.notifications) + 1;
  }

  // ---------------------------------------------------------------------------------------------
  // What each operation does, item by item
  // ---------------------------------------------------------------------------------------------

  /** The same places, and the same items but at the id, where the item has changed to `item`. */
  ghost predicate OnlyAt(before: seq<Item>, after: seq<Item>, id: string, item: Item -> Item) {
    && |after| == |before|
    && forall i | 0 <= i < |before| :: after[i] == if before[i].id == id then item(before[i]) else before[i]
  }

  function Marked(readAt: Option<string>): Item -> Item {
    (n: Item) => Item(n.id, readAt, n.content)
  }

  lemma {:induction false} WithReadAtSays(items: seq<Item>, id: string, readAt: Option<string>)
    ensures OnlyAt(items, WithReadAt(items, id, readAt), id, Marked(readAt))
  {
    if items != [] {
      WithReadAtSays(items[1..], id, readAt);
    }
  }

  /** What is left when the items of an id are taken out, by places. */
  ghost predicate TakenOut(before: seq<Item>, after: seq<Item>, id: string) {
    if before == [] then after == []
    else if before[0].id == id then TakenOut(before[1..], after, id)
    else after != [] && after[0] == before[0] && TakenOut(before[1..], after[1..], id)
  }

  lemma {:induction false} WithoutSays(items: seq<Item>, id: string)
    ensures TakenOut(items, Without(items, id), id)
  {
    if items != [] {
      WithoutSays(items[1..], id);
      if items[0].id == id {
        assert [] + Without(items[1..], id) == Without(items[1..], id);
      } else {
        assert ([items[0]] + Without(items[1..], id))[1..] == Without(items[1..], id);
      }
    }
  }

  lemma {:induction false} AllReadSays(items: seq<Item>, now: string)
    ensures |AllRead(items, now)| == |items|
    ensures forall i | 0 <= i < |items| :: AllRead(items, now)[i] ==
              if items[i].readAt in {None, Some("")} then Item(items[i].id, Some(now), items[i].content)
              else items[i]
  {
    if items != [] {
      AllReadSays(items[1..], now);
    }
  }

  /** The first item of the id is there, and unread. */
  ghost predicate FirstIsUnread(items: seq<Item>, id: string) {
    items != [] && if items[0].id == id then items[0].readAt in {None, Some("")} else FirstIsUnread(items[1..], id)
  }

  ghost predicate Lists(items: seq<Item>, id: string) {
    exists n <- items :: n.id == id
  }

  lemma {:induction false} UnreadSays(items: seq<Item>, id: string)
    ensures UnreadAt(items, id) <==> FirstIsUnread(items, id)
    ensures Find(items, id).Some? <==> Lists(items, id)
  {
    if items != [] {
      UnreadSays(items[1..], id);
      assert items == [items[0]] + items[1..];
      assert Find(items, id) == if items[0].id == id then Some(items[0]) else Find(items[1..], id);
      assert Read(items[0].readAt) <==> items[0].readAt !in {None, Some("")};
    }
  }

  /** Each operation by its effect on the list and the count, and whether it tells its listeners. */
  lemma ApplySays(s: State, op: Op)
    ensures
      var State(items, count) := Apply(s, op);
      var same, tells := items == s.notifications && count == s.unreadCount, Told(s, op) != [];
      && (tells ==> Told(s, op) == [Listed(items), Counted(count)])
      && match op
         case Arrive(id, content) =>
           && |items| == |s.notifications| + 1 && items[0] == Item(id, None, content) && items[1..] == s.notifications
           && count == s.unreadCount + 1 && tells
         case MarkRead(id, now) =>
           if !FirstIsUnread(s.notifications, id) then same && !tells
           else OnlyAt(s.notifications, items, id, Marked(Some(now))) && tells
                && count == if s.unreadCount >= 1 then s.unreadCount - 1 else 0
         case MarkUnread(id) =>
           if !Lists(s.notifications, id) || FirstIsUnread(s.notifications, id) then same && !tells
           else OnlyAt(s.notifications, items, id, Marked(None)) && tells && count == s.unreadCount + 1
         case Archive(id) =>
           if !Lists(s.notifications, id) then same && !tells
           else
             && TakenOut(s.notifications, items, id) && tells
             && count == if !FirstIsUnread(s.notifications, id) then s.unreadCount
                         else if s.unreadCount >= 1 then s.unreadCount - 1 else 0
         case Revert(id, previous) =>
           OnlyAt(s.notifications, items, id, Marked(previous)) && count == Unread(items) && tells
         case MarkAllRead(now) =>
           && |items| == |s.notifications| && count == 0 && tells
           && forall i | 0 <= i < |items| ::
                items[i] == if s.notifications[i].readAt in {None, Some("")}
                            then Item(s.notifications[i].id, Some(now), s.notifications[i].content)
                            else s.notifications[i]
  {
    if op.MarkAllRead? {
      AllReadSays(s.notifications, op.now);
    } else {
      UnreadSays(s.notifications, op.id);
      WithoutSays(s.notifications, op.id);
      match op
      case MarkRead(id, now) => WithReadAtSays(s.notifications, id, Some(now));
      case MarkUnread(id) => WithReadAtSays(s.notifications, id, None);
      case Revert(id, previous) => WithReadAtSays(s.notifications, id, previous);
      case _ =>
    }
    hide WithReadAt, Without, AllRead, OnlyAt, TakenOut, Unread, FirstIsUnread, Lists;
  }

  /** The places of the unread items: those without a readAt, or with an empty one. */
  function UnreadPlaces(items: seq<Item>): set<nat> {
    set i: nat | i < |items| && items[i].readAt in {None, Some("")} :: i
  }

  lemma {:induction false} UnreadLast(items: seq<Item>)
    requires items != []
    ensures var n := |items| - 1; Unread(items) == Unread(items[..n]) + One(!Read(items[n].readAt))
  {
    var n := |items| - 1;
    if n > 0 {
      UnreadLast(items[1..]);
      assert items[1..][..n - 1] == items[..n][1..];
    }
  }

  lemma PlacesLast(items: seq<Item>)
    requires items != []
    ensures var n: nat := |items| - 1;
            && UnreadPlaces(items[..n]) == UnreadPlaces(items) - {n}
            && (n in UnreadPlaces(items) <==> !Read(items[n].readAt))
  {
    var n: nat := |items| - 1;
    forall i: nat ensures i in UnreadPlaces(items[..n]) <==> i in UnreadPlaces(items) && i != n {
      assert i < n ==> items[..n][i] == items[i];
    }
  }

  lemma {:induction false} UnreadCounts(items: seq<Item>)
    ensures Unread(items) == |UnreadPlaces(items)|
  {
    if items == [] {
      assert UnreadPlaces(items) == {};
    } else {
      var n := |items| - 1;
      UnreadCounts(items[..n]);
      UnreadLast(items);
      PlacesLast(items);
      hide Unread, UnreadPlaces, Read;
      assert n in UnreadPlaces(items) ==> UnreadPlaces(items) == (UnreadPlaces(items) - {n}) + {n};
    }
  }

  // ---------------------------------------------------------------------------------------------
  // Taking an optimistic update back
  // ---------------------------------------------------------------------------------------------

  /** The same lists but for the readAt of one id, which is `previous` in the second. */
  ghost predicate Twins(a: seq<Item>, b: seq<Item>, id: string, previous: Option<string>) {
    || (a == [] && b == [])
    || (&& a != [] && b != []
        && (if a[0].id == id then b[0] == a[0].(readAt := previous) else b[0] == a[0])
        && Twins(a[1..], b[1..], id, previous))
  }

  lemma {:induction false} MarkingMakesTwins(items: seq<Item>, id: string, readAt: Option<string>)
    requires Unique(items)
    ensures Find(items, id).Some? ==>
              Twins(WithReadAt(items, id, readAt), items, id, Find(items, id).value.readAt)
    ensures Find(items, id).None? ==> Twins(items, items, id, None)
  {
    if items != [] {
      IdsSplit(items);
      if items[0].id == id {
        NoTwin(items[1..], id, readAt, items[0].readAt);
      } else {
        MarkingMakesTwins(items[1..], id, readAt);
      }
    }
  }

  lemma {:induction false} NoTwin(items: seq<Item>, id: string, readAt: Option<string>, previous: Option<string>)
    requires id !in Ids(items)
    ensures Twins(WithReadAt(items, id, readAt), items, id, previous) && Twins(items, items, id, previous)
  {
    if items != [] {
      IdsSplit(items);
      NoTwin(items[1..], id, readAt, previous);
    }
  }

  lemma {:induction false} RevertedTwin(a: seq<Item>, b: seq<Item>, id: string, previous: Option<string>)
    requires Twins(a, b, id, previous)
    ensures WithReadAt(a, id, previous) == b
  {
    if a != [] {
      RevertedTwin(a[1..], b[1..], id, previous);
      assert b == [b[0]] + b[1..];
    }
  }

  lemma {:induction false} TwinsFind(a: seq<Item>, b: seq<Item>, id: string, previous: Option<string>, other: string)
    requires Twins(a, b, id, previous) && other != id
    ensures Find(a, other) == Find(b, other)
  {
    if a != [] {
      TwinsFind(a[1..], b[1..], id, previous, other);
    }
  }

  lemma {:induction false} TwinsMark(a: seq<Item>, b: seq<Item>, id: string, previous: Option<string>, other: string,
                                     readAt: Option<string>)
    requires Twins(a, b, id, previous) && other != id
    ensures Twins(WithReadAt(a, other, readAt), WithReadAt(b, other, readAt), id, previous)
  {
    if a != [] {
      TwinsMark(a[1..], b[1..], id, previous, other, readAt);
    }
  }

  lemma {:induction false} TwinsRemove(a: seq<Item>, b: seq<Item>, id: string, previous: Option<string>, other: string)
    requires Twins(a, b, id, previous) && other != id
    ensures Twins(Without(a, other), Without(b, other), id, previous)
  {
    if a != [] {
      TwinsRemove(a[1..], b[1..], id, previous, other);
      if a[0].id == other {
        assert [] + Without(a[1..], other) == Without(a[1..], other);
        assert [] + Without(b[1..], other) == Without(b[1..], other);
      } else {
        assert ([a[0]] + Without(a[1..], other))[1..] == Without(a[1..], other);
        assert ([b[0]] + Without(b[1..], other))[1..] == Without(b[1..], other);
      }
    }
  }

  predicate Elsewhere(op: Op, id: string) {
    !op.MarkAllRead? && op.id != id
  }

  lemma StepKeepsTwins(s: State, t: State, op: Op, id: string, previous: Option<string>)
    requires Twins(s.notifications, t.notifications, id, previous) && Elsewhere(op, id)
    ensures Twins(Apply(s, op).notifications, Apply(t, op).notifications, id, previous)
  {
    var a, b := s.notifications, t.notifications;
    TwinsFind(a, b, id, previous, op.id);
    match op
    case Arrive(other, content) =>
      var item := Item(other, None, content);
      assert ([item] + a)[1..] == a && ([item] + b)[1..] == b;
    case MarkRead(other, now) => TwinsMark(a, b, id, previous, other, Some(now));
    case MarkUnread(other) => TwinsMark(a, b, id, previous, other, None);
    case Archive(other) => TwinsRemove(a, b, id, previous, other);
    case Revert(other, readAt) => TwinsMark(a, b, id, previous, other, readAt);
  }

  lemma {:induction false} RunKeepsTwins(s: State, t: State, ops: seq<Op>, id: string, previous: Option<string>)
    requires Twins(s.notifications, t.notifications, id, previous) && forall op <- ops :: Elsewhere(op, id)
    ensures Twins(Run(s, ops).notifications, Run(t, ops).notifications, id, previous)
    decreases ops
  {
    hide Twins, Apply, Elsewhere;
    if ops != [] {
      StepKeepsTwins(s, t, ops[0], id, previous);
      RunKeepsTwins(Apply(s, ops[0]), Apply(t, ops[0]), ops[1..], id, previous);
    }
  }

  /** The readAt that the optimistic update remembers. */
  function Previous(s: State, id: string): Option<string> {
    if Find(s.notifications, id).Some? then Find(s.notifications, id).value.readAt else None
  }

  /** An optimistic markAsRead, what happens while its request is pending, and its failure. */
  function Failed(s: State, id: string, now: string, during: seq<Op>): State {
    Apply(Run(Apply(s, MarkRead(id, now)), during), Revert(id, Previous(s, id)))
  }

  /** A failed update leaves the list as if it had never been made, and the count recomputed from that list. */
  lemma FailedRestoresList(s: State, id: string, now: string, during: seq<Op>)
    requires Unique(s.notifications) && forall op <- during :: Elsewhere(op, id)
    ensures Failed(s, id, now, during).notifications == Run(s, during).notifications
    ensures Failed(s, id, now, during).unreadCount == Unread(Run(s, during).notifications)
  {
    var items := s.notifications;
    MarkingMakesTwins(items, id, Some(now));
    if Find(items, id).Some? && Read(Find(items, id).value.readAt) {
      SameAreTwins(items, id);
    }
    hide Twins, WithReadAt, Find;
    RunKeepsTwins(Apply(s, MarkRead(id, now)), s, during, id, Previous(s, id));
    var marked := Run(Apply(s, MarkRead(id, now)), during);
    RevertedTwin(marked.notifications, Run(s, during).notifications, id, Previous(s, id));
  }

  lemma {:induction false} SameAreTwins(items: seq<Item>, id: string)
    requires Unique(items) && Find(items, id).Some?
    ensures Twins(items, items, id, Find(items, id).value.readAt)
  {
    IdsSplit(items);
    if items[0].id == id {
      NoTwin(items[1..], id, None, items[0].readAt);
    } else {
      SameAreTwins(items[1..], id);
    }
  }

  /**
  A failed update leaves the whole state as if it had never been made exactly when the count had no surplus over the
  list, or something else recounted it meanwhile.
  */
  lemma FailedRestoresExact(s: State, id: string, now: string, during: seq<Op>)
    requires Consistent(s) && RunIsSound(s, during) && forall op <- during :: Elsewhere(op, id)
    ensures Failed(s, id, now, during) == Run(s, during) <==> Surplus(s) == 0 || exists op <- during :: Recounts(op)
  {
    FailedRestoresList(s, id, now, during);
    RunKeepsSurplus(s, during);
    hide Failed, Run, Unread;
  }

  /** Two optimistic updates of one notification, the second begun while the first is pending, that both fail. */
  function BothFail(s: State, id: string, now: string, now': string, secondFirst: bool): State {
    var s1 := Apply(s, MarkRead(id, now));
    var s2 := Apply(s1, MarkRead(id, now'));
    var first, second := Revert(id, Previous(s, id)), Revert(id, Previous(s1, id));
    if secondFirst then Apply(Apply(s2, second), first) else Apply(Apply(s2, first), second)
  }

  /**
  Of an unread notification both leave the list as it was exactly when the one begun later fails first; in the other
  order the item stays read, although no request succeeded.
  */
  lemma FailingTwiceLeavesRead(s: State, id: string, now: string, now': string, secondFirst: bool)
    requires Unique(s.notifications) && UnreadAt(s.notifications, id) && now != ""
    ensures
      var t := BothFail(s, id, now, now', secondFirst);
      && (t.notifications == s.notifications <==> secondFirst)
      && Previous(t, id) == if secondFirst then Previous(s, id) else Some(now)
  {
    var items := s.notifications;
    var s1 := Apply(s, MarkRead(id, now));
    FindMarked(items, id, Some(now));
    var marked := s1.notifications;
    var back := if secondFirst then Some(now) else Previous(s, id);
    var last := if secondFirst then Previous(s, id) else Some(now);
    FindMarked(marked, id, back);
    FindMarked(WithReadAt(marked, id, back), id, last);
    LastMarkCounts(items, id, Some(now), back);
    LastMarkCounts(items, id, back, last);
    hide Unique;
    if secondFirst {
      MarkedBack(items, id);
    }
  }

  /** Of two marks of one item the later one counts. */
  lemma {:induction false} LastMarkCounts(items: seq<Item>, id: string, first: Option<string>, last: Option<string>)
    ensures WithReadAt(WithReadAt(items, id, first), id, last) == WithReadAt(items, id, last)
  {
    if items != [] {
      LastMarkCounts(items[1..], id, first, last);
    }
  }

  lemma MarkedBack(items: seq<Item>, id: string)
    requires Unique(items) && Find(items, id).Some?
    ensures WithReadAt(items, id, Find(items, id).value.readAt) == items
  {
    SameAreTwins(items, id);
    RevertedTwin(items, items, id, Find(items, id).value.readAt);
  }

  lemma {:induction false} FindMarked(items: seq<Item>, id: string, readAt: Option<string>)
    requires Find(items, id).Some?
    ensures Find(WithReadAt(items, id, readAt), id) == Some(Find(items, id).value.(readAt := readAt))
  {
    if items[0].id != id {
      FindMarked(items[1..], id, readAt);
    }
  }

  // ---------------------------------------------------------------------------------------------
  // The store and the updater as objects
  // ---------------------------------------------------------------------------------------------

  /** What listeners are told. */
  datatype Change = Listed(notifications: seq<Item>) | Counted(unreadCount: int)

  /** Operations that find nothing to do return before they tell anyone. */
  predicate Tells(s: State, op: Op) {
    match op
    case MarkRead(id, _) => UnreadAt(s.notifications, id)
    case MarkUnread(id) => Find(s.notifications, id).Some? && !UnreadAt(s.notifications, id)
    case Archive(id) => Find(s.notifications, id).Some?
    case _ => true
  }

  function Told(s: State, op: Op): seq<Change> {
    if Tells(s, op) then [Listed(Apply(s, op).notifications), Counted(Apply(s, op).unreadCount)] else []
  }

  class NotificationStore {
    var notifications: seq<Item>
    var unreadCount: int
    var told: seq<Change>

    function Now(): State
      reads this`notifications, this`unreadCount
    {
      State(notifications, unreadCount)
    }

    constructor ()
      ensures Now() == State([], 0) && told == []
    {
      notifications, unreadCount, told := [], 0, [];
    }

    method SetNotifications(items: seq<Item>)
      modifies this
      ensures Now() == State(items, old(unreadCount)) && told == old(told) + [Listed(items)]
    {
      notifications := items;
      told := told + [Listed(notifications)];
    }

    method SetUnreadCount(count: int)
      modifies this
      ensures Now() == State(old(notifications), count) && told == old(told) + [Counted(count)]
    {
      unreadCount := count;
      told := told + [Counted(unreadCount)];
    }

    method Tell()
      modifies this`told
      ensures told == old(told) + [Listed(notifications), Counted(unreadCount)]
    {
      told := told + [Listed(notifications), Counted(unreadCount)];
    }

    method HandleRealtimeNotification(id: string, content: string)
      modifies this
      ensures Now() == Apply(old(Now()), Arrive(id, content))
      ensures told == old(told) + Told(old(Now()), Arrive(id, content))
    {
      notifications := [Item(id, None, content)] + notifications;
      unreadCount := unreadCount + 1;
      Tell();
    }

    method MarkAsRead(id: string, now: string)
      modifies this
      ensures Now() == Apply(old(Now()), MarkRead(id, now)) && told == old(told) + Told(old(Now()), MarkRead(id, now))
    {
      var notification := Find(notifications, id);
      if notification.None? || Read(notification.value.readAt) {
        return;
      }
      notifications := WithReadAt(notifications, id, Some(now));
      unreadCount := Max0(unreadCount - 1);
      Tell();
    }

    method Archive(id: string)
      modifies this
      ensures Now() == Apply(old(Now()), Op.Archive(id)) && told == old(told) + Told(old(Now()), Op.Archive(id))
    {
      var notification := Find(notifications, id);
      if notification.None? {
        return;
      }
      notifications := Without(notifications, id);
      if !Read(notification.value.readAt) {
        unreadCount := Max0(unreadCount - 1);
      }
      Tell();
    }

    method MarkAsUnread(id: string)
      modifies this
      ensures Now() == Apply(old(Now()), MarkUnread(id)) && told == old(told) + Told(old(Now()), MarkUnread(id))
    {
      var notification := Find(notifications, id);
      if notification.None? || !Read(notification.value.readAt) {
        return;
      }
      notifications := WithReadAt(notifications, id, None);
      unreadCount := unreadCount + 1;
      Tell();
    }

    method RevertMarkAsRead(id: string, previous: Option<string>)
      modifies this
      ensures Now() == Apply(old(Now()), Revert(id, previous))
      ensures told == old(told) + Told(old(Now()), Revert(id, previous))
    {
      notifications := WithReadAt(notifications, id, previous);
      unreadCount := Unread(notifications);
      Tell();
    }

    method MarkAllAsRead(now: string)
      modifies this
      ensures Now() == Apply(old(Now()), MarkAllRead(now)) && told == old(told) + Told(old(Now()), MarkAllRead(now))
    {
      notifications := AllRead(notifications, now);
      unreadCount := 0;
      Tell();
    }

    method Do(op: Op)
      modifies this
      ensures Now() == Apply(old(Now()), op) && told == old(told) + Told(old(Now()), op)
    {
      match op
      case Arrive(id, content) => HandleRealtimeNotification(id, content);
      case MarkRead(id, now) => MarkAsRead(id, now);
      case MarkUnread(id) => MarkAsUnread(id);
      case Archive(id) => Archive(id);
      case Revert(id, previous) => RevertMarkAsRead(id, previous);
      case MarkAllRead(now) => MarkAllAsRead(now);
    }
  }

  class OptimisticUpdater {
    const store: NotificationStore

    constructor (store: NotificationStore)
      ensures this.store == store
    {
      this.store := store;
    }

    /** `during` is what reaches the store while the request is pending, and `succeeds` its outcome. */
    method MarkAsRead(id: string, now: string, during: seq<Op>, succeeds: bool) returns (thrown: bool)
      modifies store
      ensures thrown == !succeeds
      ensures store.Now() ==
              if succeeds then Run(Apply(old(store.Now()), MarkRead(id, now)), during)
              else Failed(old(store.Now()), id, now, during)
    {
      var existing := Find(store.notifications, id);
      var previousReadAt := if existing.Some? then existing.value.readAt else None;
      store.MarkAsRead(id, now);
      ghost var marked := store.Now();
      var i := 0;
      while i < |during|
        invariant 0 <= i <= |during|
        invariant Run(marked, during) == Run(store.Now(), during[i..])
      {
        hide Apply;
        store.Do(during[i]);
        i := i + 1;
      }
      thrown := !succeeds;
      if thrown {
        store.RevertMarkAsRead(id, previousReadAt);
      }
    }
  }
}
