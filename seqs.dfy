/**
 * The two list rebuilds every state update in the application is made of:
 * `Array.prototype.filter` and `map(x => cond(x) ? f(x) : x)`.
 */
module Seqs {

  /** `s.filter(keep)`. */
  function Filter<T>(s: seq<T>, keep: T -> bool): (r: seq<T>)
    ensures |r| <= |s|
    ensures forall i :: 0 <= i < |r| ==> r[i] in s && keep(r[i])
    ensures forall i :: 0 <= i < |s| && keep(s[i]) ==> s[i] in r
  {
    if s == [] then []
    else if keep(s[0]) then [s[0]] + Filter(s[1..], keep)
    else Filter(s[1..], keep)
  }

  /** Filtering a list with `x` in front. */
  lemma FilterCons<T>(x: T, s: seq<T>, keep: T -> bool)
    ensures Filter([x] + s, keep) == (if keep(x) then [x] else []) + Filter(s, keep)
  {
    assert ([x] + s)[0] == x;
    assert ([x] + s)[1..] == s;
  }

  /** Filtering a concatenation filters each part: the kept elements keep their order. */
  lemma {:induction false} FilterConcat<T>(a: seq<T>, b: seq<T>, keep: T -> bool)
    ensures Filter(a + b, keep) == Filter(a, keep) + Filter(b, keep)
  {
    if a == [] {
      assert a + b == b;
    } else {
      assert (a + b)[0] == a[0];
      assert (a + b)[1..] == a[1..] + b;
      FilterConcat(a[1..], b, keep);
    }
  }

  /** Each element is kept as often as it occurs when it passes, and dropped entirely otherwise. */
  lemma {:induction false} FilterMultiplicity<T>(s: seq<T>, keep: T -> bool, x: T)
    ensures multiset(Filter(s, keep))[x] == if keep(x) then multiset(s)[x] else 0
  {
    if s != [] {
      assert s == [s[0]] + s[1..];
      FilterMultiplicity(s[1..], keep, x);
    }
  }

  /** When every element passes, nothing is removed. */
  lemma {:induction false} FilterKeepsAll<T>(s: seq<T>, keep: T -> bool)
    requires forall i :: 0 <= i < |s| ==> keep(s[i])
    ensures Filter(s, keep) == s
  {
    if s != [] {
      FilterKeepsAll(s[1..], keep);
    }
  }

  /** Filtering twice by the same test removes nothing more. */
  lemma FilterIdempotent<T>(s: seq<T>, keep: T -> bool)
    ensures Filter(Filter(s, keep), keep) == Filter(s, keep)
  {
    FilterKeepsAll(Filter(s, keep), keep);
  }

  /** Two tests that agree on every element filter alike. */
  lemma {:induction false} FilterSameTest<T>(s: seq<T>, a: T -> bool, b: T -> bool)
    requires forall i :: 0 <= i < |s| ==> a(s[i]) == b(s[i])
    ensures Filter(s, a) == Filter(s, b)
  {
    if s != [] {
      FilterSameTest(s[1..], a, b);
    }
  }

  /** The first kept element is the first element of `s` that passes. */
  lemma {:induction false} FilterHead<T>(s: seq<T>, keep: T -> bool, k: nat)
    requires k < |s| && keep(s[k])
    requires forall j :: 0 <= j < k ==> !keep(s[j])
    ensures Filter(s, keep) != [] && Filter(s, keep)[0] == s[k]
  {
    if k > 0 {
      FilterHead(s[1..], keep, k - 1);
    }
  }

  /** `s.map(x => selected(x) ? change(x) : x)`. */
  function UpdateWhere<T>(s: seq<T>, selected: T -> bool, change: T -> T): (r: seq<T>)
    ensures |r| == |s|
    ensures forall i :: 0 <= i < |s| ==> r[i] == if selected(s[i]) then change(s[i]) else s[i]
  {
    if s == [] then []
    else [if selected(s[0]) then change(s[0]) else s[0]] + UpdateWhere(s[1..], selected, change)
  }

  /** With nothing selected the list comes back unchanged. */
  lemma UpdateWhereNoMatch<T>(s: seq<T>, selected: T -> bool, change: T -> T)
    requires forall i :: 0 <= i < |s| ==> !selected(s[i])
    ensures UpdateWhere(s, selected, change) == s
  {
  }
}
