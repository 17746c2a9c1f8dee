/**
 * `[...items].sort(cmp)` with a comparator `key(a) - key(b)`: ECMAScript requires
 * `Array.prototype.sort` to be stable, so the model is a stable insertion sort by an
 * integer key.
 */
module Sorting {
  import opened Seqs

  /** Keys never decrease from left to right. */
  predicate SortedBy<T>(s: seq<T>, key: T -> int) {
    forall i, j :: 0 <= i < j < |s| ==> key(s[i]) <= key(s[j])
  }

  /** Places `x` before the first element whose key is not smaller than its own. */
  function Insert<T>(x: T, s: seq<T>, key: T -> int): (r: seq<T>)
    ensures |r| == |s| + 1
  {
    if s == [] || key(x) <= key(s[0]) then [x] + s else [s[0]] + Insert(x, s[1..], key)
  }

  /** Sorts `s` by ascending key; the earlier of two equal-key elements stays first. */
  function SortBy<T>(s: seq<T>, key: T -> int): (r: seq<T>)
    ensures |r| == |s|
  {
    if s == [] then [] else Insert(s[0], SortBy(s[1..], key), key)
  }

  lemma {:induction false} InsertPermutes<T>(x: T, s: seq<T>, key: T -> int)
    ensures multiset(Insert(x, s, key)) == multiset(s) + multiset{x}
  {
    if s != [] && key(x) > key(s[0]) {
      InsertPermutes(x, s[1..], key);
      assert s == [s[0]] + s[1..];
    }
  }

  lemma {:induction false} InsertSorted<T>(x: T, s: seq<T>, key: T -> int)
    requires SortedBy(s, key)
    ensures SortedBy(Insert(x, s, key), key)
  {
    if s != [] && key(x) > key(s[0]) {
      var rest := Insert(x, s[1..], key);
      InsertSorted(x, s[1..], key);
      InsertPermutes(x, s[1..], key);
      forall i | 0 <= i < |rest| ensures key(s[0]) <= key(rest[i]) {
        assert rest[i] in multiset(rest);
        if rest[i] != x {
          assert rest[i] in multiset(s[1..]);
          var j :| 0 <= j < |s[1..]| && s[1..][j] == rest[i];
          assert s[1..][j] == s[j + 1];
        }
      }
      assert Insert(x, s, key) == [s[0]] + rest;
    }
  }

  /** The sorted list is a permutation of the input, ordered by non-decreasing key. */
  lemma {:induction false} SortBySpec<T>(s: seq<T>, key: T -> int)
    ensures multiset(SortBy(s, key)) == multiset(s)
    ensures SortedBy(SortBy(s, key), key)
  {
    if s != [] {
      SortBySpec(s[1..], key);
      InsertPermutes(s[0], SortBy(s[1..], key), key);
      InsertSorted(s[0], SortBy(s[1..], key), key);
      assert s == [s[0]] + s[1..];
    }
  }

  lemma SortByCons<T>(x: T, s: seq<T>, key: T -> int)
    ensures SortBy([x] + s, key) == Insert(x, SortBy(s, key), key)
  {
    assert ([x] + s)[1..] == s;
  }

  lemma InsertFront<T>(x: T, s: seq<T>, key: T -> int)
    requires s == [] || key(x) <= key(s[0])
    ensures Insert(x, s, key) == [x] + s
  {
  }

  lemma InsertPast<T>(x: T, s: seq<T>, key: T -> int)
    requires s != [] && key(x) > key(s[0])
    ensures Insert(x, s, key) == [s[0]] + Insert(x, s[1..], key)
  {
  }

  /** The elements whose key is `k`. */
  function KeyIs<T>(key: T -> int, k: int): T -> bool {
    x => key(x) == k
  }

  lemma {:induction false} InsertKeepsEqualKeysInOrder<T>(x: T, s: seq<T>, key: T -> int, k: int)
    ensures Filter(Insert(x, s, key), KeyIs(key, k))
         == (if key(x) == k then [x] else []) + Filter(s, KeyIs(key, k))
  {
    var keep := KeyIs(key, k);
    if s != [] && key(x) > key(s[0]) {
      InsertKeepsEqualKeysInOrder(x, s[1..], key, k);
      FilterCons(s[0], Insert(x, s[1..], key), keep);
      FilterCons(s[0], s[1..], keep);
      assert [s[0]] + s[1..] == s;
    } else {
      FilterCons(x, s, keep);
    }
  }

  /** Stability: the elements sharing any one key come out in their original order. */
  lemma {:induction false} SortByStable<T>(s: seq<T>, key: T -> int, k: int)
    ensures Filter(SortBy(s, key), KeyIs(key, k)) == Filter(s, KeyIs(key, k))
  {
    if s != [] {
      SortByStable(s[1..], key, k);
      InsertKeepsEqualKeysInOrder(s[0], SortBy(s[1..], key), key, k);
      FilterCons(s[0], s[1..], KeyIs(key, k));
      assert [s[0]] + s[1..] == s;
    }
  }
}
