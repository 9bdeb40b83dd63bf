/** Keyset paging over the members of a list: `listByList` and the cursor helpers beneath it. */
module MemberPages {
  import opened MemberStatus
  import opened Options
  import opened Sorting

  /** A member row. `createdAt` is the stored TIMESTAMPTZ, in microseconds. */
  datatype Row = Row(id: nat, listId: nat, status: Status, createdAt: nat)

  type Table = seq<Row>

  /** The millisecond a Date, and with it a cursor, keeps of a stored instant. */
  function Ms(createdAt: nat): nat {
    createdAt / 1000
  }

  datatype Page = Page(items: seq<Row>, hasMore: bool, cursor: Option<nat>)

  /** The WHERE clause: list, status and `createdAt < cursor`, the cursor being a whole millisecond. */
  predicate Selected(r: Row, listId: nat, cursor: Option<nat>) {
    && r.listId == listId && r.status == Confirmed
    && (cursor.Some? ==> r.createdAt < cursor.value * 1000)
  }

  function Select(table: Table, listId: nat, cursor: Option<nat>): seq<Row> {
    if table == [] then []
    else
      var front, last := Select(table[..|table| - 1], listId, cursor), table[|table| - 1];
      if Selected(last, listId, cursor) then front + [last] else front
  }

  function NewestFirst(): Row -> int {
    (r: Row) => 0 - r.createdAt as int
  }

  /** The query: filtered, ORDER BY createdAt DESC, LIMIT limit + 1. */
  function Fetch(table: Table, listId: nat, cursor: Option<nat>, limit: nat): seq<Row> {
    var ordered := SortBy(Select(table, listId, cursor), NewestFirst());
    if |ordered| > limit + 1 then ordered[..limit + 1] else ordered
  }

  /** cursorPaginate and toCursorResult: one row too many means there is a next page. */
  function Paginate(rows: seq<Row>, limit: nat): Page {
    var hasMore := |rows| > limit;
    var data := if hasMore then rows[..limit] else rows;
    var next := if hasMore && data != [] then Some(Ms(data[|data| - 1].createdAt)) else None;
    Page(data, next.Some?, next)
  }

  /** Math.max(1, Math.min(limit ?? 50, 1000)) */
  function NormalizeLimit(limit: Option<int>): (n: nat)
    ensures 1 <= n <= 1000
    ensures limit.None? ==> n == 50
    ensures limit.Some? ==>
              if limit.value < 1 then n == 1 else if limit.value > 1000 then n == 1000 else n == limit.value
  {
    var asked := if limit.Some? then limit.value else 50;
    var capped := if asked < 1000 then asked else 1000;
    if capped < 1 then 1 else capped
  }

  function ListByList(table: Table, listId: nat, cursor: Option<nat>, limit: Option<int>): Page {
    Paginate(Fetch(table, listId, cursor, NormalizeLimit(limit)), NormalizeLimit(limit))
  }

  predicate Before(createdAt: nat, cursor: Option<nat>) {
    cursor.Some? ==> Ms(createdAt) < cursor.value
  }

  ghost predicate UniqueIds(rows: seq<Row>) {
    forall i, j | 0 <= i < j < |rows| :: rows[i].id != rows[j].id
  }

  lemma {:induction false} SelectFilters(table: Table, listId: nat, cursor: Option<nat>, r: Row)
    ensures multiset(Select(table, listId, cursor))[r] == if Selected(r, listId, cursor) then multiset(table)[r] else 0
  {
    if table != [] {
      SelectFilters(table[..|table| - 1], listId, cursor, r);
      assert table == table[..|table| - 1] + [table[|table| - 1]];
    }
  }

  lemma {:induction false} UniqueIffCounts(rows: seq<Row>)
    requires UniqueIds(rows)
    ensures forall r :: multiset(rows)[r] <= 1
  {
    if rows != [] {
      var n := |rows| - 1;
      UniqueIffCounts(rows[..n]);
      assert rows == rows[..n] + [rows[n]];
    }
  }

  /** A row is Selected exactly when its millisecond lies before the cursor. */
  lemma SelectedByMs(r: Row, listId: nat, cursor: Option<nat>)
    ensures Selected(r, listId, cursor) <==> r.listId == listId && r.status == Confirmed && Before(r.createdAt, cursor)
  {
  }

  /** All rows of the query, in order. */
  ghost function Ordered(table: Table, listId: nat, cursor: Option<nat>): seq<Row> {
    SortBy(Select(table, listId, cursor), NewestFirst())
  }

  lemma OrderedFacts(table: Table, listId: nat, cursor: Option<nat>)
    ensures var all := Ordered(table, listId, cursor);
            && Sorted(all, NewestFirst())
            && (forall r :: r in all <==> r in table && Selected(r, listId, cursor))
  {
    var all := Ordered(table, listId, cursor);
    SortBySorts(Select(table, listId, cursor), NewestFirst());
    forall r ensures r in all <==> r in table && Selected(r, listId, cursor) {
      SelectFilters(table, listId, cursor, r);
      assert r in all <==> r in multiset(all);
      assert r in table <==> r in multiset(table);
    }
  }

  lemma {:induction false} SelectBefore(table: Table, listId: nat, c: nat)
    ensures Select(table, listId, Some(c)) == Above(Select(table, listId, None), NewestFirst(), 0 - c * 1000)
  {
    if table != [] {
      var front, last := table[..|table| - 1], table[|table| - 1];
      SelectBefore(front, listId, c);
      var selected := Select(front, listId, None);
      assert (selected + [last])[..|selected|] == selected;
    }
  }

  /** A cursor between two rows of the whole order leaves the order from the second one on. */
  lemma OrderedFrom(table: Table, listId: nat, c: nat, j: nat)
    requires var all := Ordered(table, listId, None);
             && j <= |all| && (j > 0 ==> c <= Ms(all[j - 1].createdAt)) && (j < |all| ==> Ms(all[j].createdAt) < c)
    ensures Ordered(table, listId, Some(c)) == Ordered(table, listId, None)[j..]
  {
    hide Select, SortBy, Above;
    var selected, key, bound := Select(table, listId, None), NewestFirst(), 0 - c * 1000;
    SortBySorts(selected, key);
    SelectBefore(table, listId, c);
    AboveSorted(selected, key, bound);
    hide Sorted;
    AboveIsSuffix(SortBy(selected, key), key, bound, j);
  }

  /** A page never repeats a row. */
  lemma OrderedIsUnique(table: Table, listId: nat, cursor: Option<nat>, i: nat, j: nat)
    requires UniqueIds(table) && i < j < |Ordered(table, listId, cursor)|
    ensures Ordered(table, listId, cursor)[i].id != Ordered(table, listId, cursor)[j].id
  {
    var all := Ordered(table, listId, cursor);
    OrderedFacts(table, listId, cursor);
    SortBySorts(Select(table, listId, cursor), NewestFirst());
    SelectFilters(table, listId, cursor, all[i]);
    UniqueIffCounts(table);
    TwoOccurrences(all, i, j);
    assert all[i] in all && all[j] in all;
  }

  /** A confirmed row of the list that the pages so far have not passed. */
  ghost predicate Waiting(r: Row, table: Table, listId: nat, cursor: Option<nat>) {
    r in table && r.listId == listId && r.status == Confirmed && Before(r.createdAt, cursor)
  }

  lemma OrderedIsWaiting(table: Table, listId: nat, cursor: Option<nat>)
    ensures forall r :: r in Ordered(table, listId, cursor) <==> Waiting(r, table, listId, cursor)
  {
    OrderedFacts(table, listId, cursor);
    forall r ensures r in Ordered(table, listId, cursor) <==> Waiting(r, table, listId, cursor) {
      SelectedByMs(r, listId, cursor);
    }
  }

  /** What a page holds: at most `limit` different waiting rows, none older than the next cursor's millisecond. */
  lemma PageHolds(table: Table, listId: nat, cursor: Option<nat>, limit: Option<int>)
    requires UniqueIds(table)
    ensures
      var page := ListByList(table, listId, cursor, limit);
      && |page.items| <= NormalizeLimit(limit) && UniqueIds(page.items)
      && page.hasMore == page.cursor.Some?
      && (forall r <- page.items :: Waiting(r, table, listId, cursor))
      && (page.cursor.Some? ==> forall r <- page.items :: page.cursor.value <= Ms(r.createdAt))
  {
    var n := NormalizeLimit(limit);
    var all := Ordered(table, listId, cursor);
    var page := ListByList(table, listId, cursor, limit);
    assert page.items == (if |all| > n then all[..n] else all) && (page.cursor.Some? ==> |all| > n);
    assert page.cursor.Some? ==> page.cursor.value == Ms(all[n - 1].createdAt);
    assert page.hasMore == page.cursor.Some?;
    OrderedFacts(table, listId, cursor);
    OrderedIsWaiting(table, listId, cursor);
    hide Ordered, ListByList, NormalizeLimit, Waiting;
    forall i, j | 0 <= i < j < |page.items| ensures page.items[i].id != page.items[j].id {
      OrderedIsUnique(table, listId, cursor, i, j);
    }
    forall r <- page.items ensures r in all && (page.cursor.Some? ==> page.cursor.value <= Ms(r.createdAt)) {
      var i :| 0 <= i < |page.items| && page.items[i] == r;
      assert all[i] == r && (page.cursor.Some? ==> NewestFirst()(all[i]) <= NewestFirst()(all[n - 1]));
    }
  }

  /**
  What a page leaves for later: of the waiting rows it does not hold, none is newer than the next cursor's
  millisecond, and without a next cursor there is none.
  */
  lemma PageLeaves(table: Table, listId: nat, cursor: Option<nat>, limit: Option<int>, r: Row)
    requires Waiting(r, table, listId, cursor)
    ensures
      var page := ListByList(table, listId, cursor, limit);
      r in page.items || (page.cursor.Some? && Ms(r.createdAt) <= page.cursor.value)
  {
    var n := NormalizeLimit(limit);
    var all := Ordered(table, listId, cursor);
    OrderedFacts(table, listId, cursor);
    OrderedIsWaiting(table, listId, cursor);
    if |all| > n {
      var k :| 0 <= k < |all| && all[k] == r;
      if k < n {
        assert all[..n][k] == r;
      } else {
        assert NewestFirst()(all[n - 1]) <= NewestFirst()(all[k]);
      }
    }
  }

  /** The next cursor is the millisecond of a row on the page, so cursors strictly decrease and paging ends. */
  lemma NextCursor(table: Table, listId: nat, cursor: Option<nat>, limit: Option<int>)
    ensures
      var page := ListByList(table, listId, cursor, limit);
      page.cursor.Some? ==>
        && page.items != []
        && Some(Ms(page.items[|page.items| - 1].createdAt)) == page.cursor
        && Before(page.cursor.value * 1000, cursor)
  {
    var n := NormalizeLimit(limit);
    var all := Ordered(table, listId, cursor);
    OrderedIsWaiting(table, listId, cursor);
    if |all| > n {
      assert all[n - 1] in all;
    }
  }
}
