/** Stable sorting by an integer key: ORDER BY, ZRANGEBYSCORE and Array.prototype.sort. */
module Sorting {

  ghost predicate Sorted<T>(s: seq<T>, key: T -> int) {
    forall i, j | 0 <= i < j < |s| :: key(s[i]) <= key(s[j])
  }

  /** Places x after every element whose key is not larger. */
  function Insert<T>(s: seq<T>, x: T, key: T -> int): seq<T> {
    if s == [] then [x]
    else if key(x) < key(s[|s| - 1]) then Insert(s[..|s| - 1], x, key) + [s[|s| - 1]]
    else s + [x]
  }

  function SortBy<T>(s: seq<T>, key: T -> int): seq<T> {
    if s == [] then [] else Insert(SortBy(s[..|s| - 1], key), s[|s| - 1], key)
  }

  lemma {:induction false} InsertAdds<T>(s: seq<T>, x: T, key: T -> int)
    ensures multiset(Insert(s, x, key)) == multiset(s) + multiset{x}
  {
    if s != [] && key(x) < key(s[|s| - 1]) {
      InsertAdds(s[..|s| - 1], x, key);
      assert s == s[..|s| - 1] + [s[|s| - 1]];
    }
  }

  /** The largest key after an insertion is that of the old last element or of the new one. */
  lemma {:induction false} InsertSorts<T>(s: seq<T>, x: T, key: T -> int)
    requires Sorted(s, key)
    ensures var r := Insert(s, x, key);
            Sorted(r, key) && |r| == |s| + 1 && (key(r[|s|]) == key(x) || (s != [] && key(r[|s|]) == key(s[|s| - 1])))
  {
    if s != [] && key(x) < key(s[|s| - 1]) {
      InsertSorts(s[..|s| - 1], x, key);
    }
  }

  lemma {:induction false} SortBySorts<T>(s: seq<T>, key: T -> int)
    ensures Sorted(SortBy(s, key), key)
    ensures multiset(SortBy(s, key)) == multiset(s)
    ensures |SortBy(s, key)| == |s|
  {
    if s != [] {
      var front := s[..|s| - 1];
      SortBySorts(front, key);
      InsertSorts(SortBy(front, key), s[|s| - 1], key);
      InsertAdds(SortBy(front, key), s[|s| - 1], key);
      hide Insert, Sorted;
      assert s == front + [s[|s| - 1]];
    }
  }

  /** Sorting is stable, so it leaves a sorted sequence alone. */
  lemma {:induction false} SortBySorted<T>(s: seq<T>, key: T -> int)
    requires Sorted(s, key)
    ensures SortBy(s, key) == s
  {
    if s != [] {
      SortBySorted(s[..|s| - 1], key);
      assert s == s[..|s| - 1] + [s[|s| - 1]];
    }
  }

  /** The elements whose key lies above a bound, in their order. */
  function Above<T>(s: seq<T>, key: T -> int, bound: int): seq<T> {
    if s == [] then []
    else Above(s[..|s| - 1], key, bound) + if key(s[|s| - 1]) > bound then [s[|s| - 1]] else []
  }

  lemma {:induction false} AboveIsAbove<T>(s: seq<T>, key: T -> int, bound: int, x: T)
    ensures x in Above(s, key, bound) <==> x in s && key(x) > bound
  {
    if s != [] {
      AboveIsAbove(s[..|s| - 1], key, bound, x);
      assert s == s[..|s| - 1] + [s[|s| - 1]];
    }
  }

  lemma {:induction false} AboveInsert<T>(s: seq<T>, x: T, key: T -> int, bound: int)
    requires Sorted(s, key)
    ensures Above(Insert(s, x, key), key, bound) ==
            if key(x) > bound then Insert(Above(s, key, bound), x, key) else Above(s, key, bound)
  {
    if s != [] && key(x) < key(s[|s| - 1]) {
      AboveInsert(s[..|s| - 1], x, key, bound);
    } else {
      assert (s + [x])[..|s|] == s;
      var kept := Above(s, key, bound);
      if kept != [] {
        AboveIsAbove(s, key, bound, kept[|kept| - 1]);
        assert kept[|kept| - 1] in kept;
      }
    }
  }

  lemma SortByLast<T>(s: seq<T>, x: T, key: T -> int, bound: int)
    ensures SortBy(s + [x], key) == Insert(SortBy(s, key), x, key)
    ensures Above(s + [x], key, bound) == Above(s, key, bound) + if key(x) > bound then [x] else []
  {
    assert (s + [x])[..|s|] == s;
  }

  lemma AboveSortedMore<T>(s: seq<T>, x: T, key: T -> int, bound: int)
    requires Above(SortBy(s, key), key, bound) == SortBy(Above(s, key, bound), key)
    ensures Above(SortBy(s + [x], key), key, bound) == SortBy(Above(s + [x], key, bound), key)
  {
    SortBySorts(s, key);
    AboveInsert(SortBy(s, key), x, key, bound);
    SortByLast(s, x, key, bound);
    hide *;
    if key(x) > bound {
      SortByLast(Above(s, key, bound), x, key, bound);
    } else {
      assert Above(s, key, bound) + [] == Above(s, key, bound);
    }
  }

  /** Sorting is stable, so it commutes with leaving out the smaller keys. */
  lemma {:induction false} AboveSorted<T>(s: seq<T>, key: T -> int, bound: int)
    ensures Above(SortBy(s, key), key, bound) == SortBy(Above(s, key, bound), key)
  {
    if s != [] {
      var front, last := s[..|s| - 1], s[|s| - 1];
      assert s == front + [last];
      hide *;
      AboveSorted(front, key, bound);
      AboveSortedMore(front, last, key, bound);
    }
  }

  lemma AboveMore<T>(s: seq<T>, x: T, key: T -> int, bound: int, j: nat)
    requires j <= |s| && Above(s, key, bound) == s[j..]
    ensures key(x) > bound ==> Above(s + [x], key, bound) == (s + [x])[j..]
    ensures key(x) <= bound && j == |s| ==> Above(s + [x], key, bound) == (s + [x])[j + 1..]
  {
    SortByLast(s, x, key, bound);
    hide *;
    assert (s + [x])[j..] == s[j..] + [x];
  }

  lemma {:induction false} AboveFrom<T>(s: seq<T>, key: T -> int, bound: int, j: nat)
    requires j <= |s|
    requires (forall i | 0 <= i < j :: key(s[i]) <= bound) && (forall i | j <= i < |s| :: key(s[i]) > bound)
    ensures Above(s, key, bound) == s[j..]
  {
    if s != [] {
      var n := |s| - 1;
      assert s == s[..n] + [s[n]];
      hide *;
      AboveFrom(s[..n], key, bound, if j <= n then j else n);
      AboveMore(s[..n], s[n], key, bound, if j <= n then j else n);
    }
  }

  /** In a sorted sequence they are its end. */
  lemma AboveIsSuffix<T>(s: seq<T>, key: T -> int, bound: int, j: nat)
    requires Sorted(s, key) && j <= |s|
    requires (j > 0 ==> key(s[j - 1]) <= bound) && (j < |s| ==> key(s[j]) > bound)
    ensures Above(s, key, bound) == s[j..]
  {
    AboveFrom(s, key, bound, j);
  }

  /** An element found at two positions counts at least twice. */
  lemma TwoOccurrences<T>(s: seq<T>, i: nat, j: nat)
    requires i < j < |s|
    ensures s[i] == s[j] ==> multiset(s)[s[i]] >= 2
  {
    assert s == s[..i] + [s[i]] + s[i + 1..j] + [s[j]] + s[j + 1..];
  }
}
