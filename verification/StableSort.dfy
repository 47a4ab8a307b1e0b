/** What `sort_by_key` does: a stable sort by a numeric key. */
module StableSort {

  predicate SortedBy<T>(s: seq<T>, key: T -> nat) {
    forall i, j :: 0 <= i < j < |s| ==> key(s[i]) <= key(s[j])
  }

  /** Puts `x` behind every element whose key is not larger. */
  function Insert<T>(s: seq<T>, x: T, key: T -> nat): seq<T> {
    if s == [] || key(s[|s| - 1]) <= key(x) then s + [x]
    else Insert(s[..|s| - 1], x, key) + [s[|s| - 1]]
  }

  function SortBy<T>(s: seq<T>, key: T -> nat): seq<T> {
    if s == [] then [] else Insert(SortBy(s[..|s| - 1], key), s[|s| - 1], key)
  }

  /** The elements with a given key, in order. */
  function WithKey<T>(s: seq<T>, key: T -> nat, k: nat): seq<T> {
    if s == [] then []
    else WithKey(s[..|s| - 1], key, k) + if key(s[|s| - 1]) == k then [s[|s| - 1]] else []
  }

  lemma {:induction false} InsertAdds<T>(s: seq<T>, x: T, key: T -> nat)
    ensures multiset(Insert(s, x, key)) == multiset(s) + multiset{x}
    ensures forall y :: y in Insert(s, x, key) ==> y in s || y == x
  {
    if s != [] {
      InsertAdds(s[..|s| - 1], x, key);
      assert s == s[..|s| - 1] + [s[|s| - 1]];
    }
  }

  lemma {:induction false} InsertSorts<T>(s: seq<T>, x: T, key: T -> nat)
    requires SortedBy(s, key)
    ensures SortedBy(Insert(s, x, key), key)
  {
    if s == [] || key(s[|s| - 1]) <= key(x) {
    } else {
      var init, last := s[..|s| - 1], s[|s| - 1];
      InsertSorts(init, x, key);
      InsertAdds(init, x, key);
      var r := Insert(init, x, key);
      forall i | 0 <= i < |r|
        ensures key(r[i]) <= key(last)
      {
        assert r[i] in r;
      }
    }
  }

  lemma {:induction false} InsertKeepsOrder<T>(s: seq<T>, x: T, key: T -> nat, k: nat)
    requires SortedBy(s, key)
    ensures WithKey(Insert(s, x, key), key, k) == WithKey(s + [x], key, k)
  {
    if s == [] || key(s[|s| - 1]) <= key(x) {
    } else {
      var init, last := s[..|s| - 1], s[|s| - 1];
      InsertKeepsOrder(init, x, key, k);
      assert Insert(s, x, key)[..|Insert(s, x, key)| - 1] == Insert(init, x, key);
      assert (s + [x])[..|s + [x]| - 1] == s;
      assert (init + [x])[..|init + [x]| - 1] == init;
    }
  }

  /** The result is sorted, a permutation, and keeps the order of elements that share a key. */
  lemma {:induction false} SortByIsStableSort<T>(s: seq<T>, key: T -> nat, k: nat)
    ensures SortedBy(SortBy(s, key), key)
    ensures multiset(SortBy(s, key)) == multiset(s)
    ensures WithKey(SortBy(s, key), key, k) == WithKey(s, key, k)
  {
    if s != [] {
      var init, last := s[..|s| - 1], s[|s| - 1];
      SortByIsStableSort(init, key, k);
      var r := SortBy(init, key);
      InsertSorts(r, last, key);
      InsertAdds(r, last, key);
      InsertKeepsOrder(r, last, key, k);
      assert s == init + [last];
      assert (r + [last])[..|r + [last]| - 1] == r;
    }
  }

  lemma {:induction false} SortingSortedIsIdentity<T>(s: seq<T>, key: T -> nat)
    requires SortedBy(s, key)
    ensures SortBy(s, key) == s
  {
    if s != [] {
      SortingSortedIsIdentity(s[..|s| - 1], key);
    }
  }
}
