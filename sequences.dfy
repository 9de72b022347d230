/**
 * The array routines the source leans on: `Array.prototype.filter`,
 * `Array.prototype.find` by a key, and `Array.prototype.sort` with a numeric
 * comparator, over immutable sequences.
 */
module Sequences {
  import opened Wrappers

  /** `s.startsWith(prefix)`. */
  predicate StartsWith<T(==)>(s: seq<T>, prefix: seq<T>) {
    |prefix| <= |s| && s[..|prefix|] == prefix
  }

  /** `s.endsWith(suffix)`. */
  predicate EndsWith<T(==)>(s: seq<T>, suffix: seq<T>) {
    |suffix| <= |s| && s[|s| - |suffix|..] == suffix
  }

  /** `s.filter(p)`: the elements satisfying `p`, in their original order. */
  function Filter<T>(s: seq<T>, p: T -> bool): (r: seq<T>)
    ensures |r| <= |s|
    ensures forall i :: 0 <= i < |r| ==> r[i] in s && p(r[i])
    ensures forall i :: 0 <= i < |s| && p(s[i]) ==> s[i] in r
  {
    if s == [] then []
    else if p(s[0]) then [s[0]] + Filter(s[1..], p)
    else Filter(s[1..], p)
  }

  /** Filtering works piecewise, so the kept elements keep their relative order. */
  lemma {:induction false} FilterAppend<T>(a: seq<T>, b: seq<T>, p: T -> bool)
    ensures Filter(a + b, p) == Filter(a, p) + Filter(b, p)
  {
    if a == [] {
      assert a + b == b;
    } else {
      assert (a + b)[0] == a[0];
      assert (a + b)[1..] == a[1..] + b;
      FilterAppend(a[1..], b, p);
    }
  }

  /** A sequence all of whose elements pass is its own filter. */
  lemma {:induction false} FilterKeepsAll<T>(s: seq<T>, p: T -> bool)
    requires forall i :: 0 <= i < |s| ==> p(s[i])
    ensures Filter(s, p) == s
  {
    if s != [] {
      FilterKeepsAll(s[1..], p);
    }
  }

  /** Filtering keeps every copy of an element that passes and drops every copy of one that does not. */
  lemma {:induction false} FilterCounts<T>(s: seq<T>, p: T -> bool, x: T)
    ensures multiset(Filter(s, p))[x] == if p(x) then multiset(s)[x] else 0
  {
    if s != [] {
      FilterCounts(s[1..], p, x);
      assert s == [s[0]] + s[1..];
    }
  }

  /** Filtering twice with the same predicate is filtering once. */
  lemma FilterIdempotent<T>(s: seq<T>, p: T -> bool)
    ensures Filter(Filter(s, p), p) == Filter(s, p)
  {
    FilterKeepsAll(Filter(s, p), p);
  }

  /** `xs.find(x => key(x) === k)`, as the index of the element found: the first one whose key is `k`. */
  function FindFirst<T, K(==)>(xs: seq<T>, key: T -> K, k: K): (r: Option<nat>)
    ensures r.Some? ==> r.value < |xs| && key(xs[r.value]) == k
    ensures r.Some? ==> forall j :: 0 <= j < r.value ==> key(xs[j]) != k
    ensures r.None? ==> forall j :: 0 <= j < |xs| ==> key(xs[j]) != k
  {
    if xs == [] then None
    else if key(xs[0]) == k then Some(0)
    else match FindFirst(xs[1..], key, k)
      case None => None
      case Some(i) => Some(i + 1)
  }

  /** The search finds exactly the index whose key matches and no earlier key does. */
  lemma FindFirstAt<T, K>(xs: seq<T>, key: T -> K, k: K, i: nat)
    requires i < |xs| && key(xs[i]) == k
    requires forall j :: 0 <= j < i ==> key(xs[j]) != k
    ensures FindFirst(xs, key, k) == Some(i)
  {
    match FindFirst(xs, key, k)
    case None =>
    case Some(n) =>
  }

  /** An element found in a sequence is found at the same index in any extension of it. */
  lemma {:induction false} FindFirstPrefix<T, K>(xs: seq<T>, more: seq<T>, key: T -> K, k: K)
    requires FindFirst(xs, key, k).Some?
    ensures FindFirst(xs + more, key, k) == FindFirst(xs, key, k)
  {
    if key(xs[0]) != k {
      assert (xs + more)[1..] == xs[1..] + more;
      FindFirstPrefix(xs[1..], more, key, k);
    }
  }

  /** `x` comes no later than `y` in the order a comparator `a - b` (ascending) or `b - a` (descending) asks for. */
  predicate InOrder(x: real, y: real, ascending: bool) {
    if ascending then x <= y else x >= y
  }

  predicate SortedBy<T>(s: seq<T>, key: T -> real, ascending: bool) {
    forall i, j :: 0 <= i < j < |s| ==> InOrder(key(s[i]), key(s[j]), ascending)
  }

  /**
   * Inserts `x` before the first element that it may precede; ahead of equal
   * keys, so that an element taken from the front of the input stays ahead of
   * later elements with the same key, as a stable sort keeps it.
   */
  function Insert<T>(x: T, s: seq<T>, key: T -> real, ascending: bool): (r: seq<T>)
    requires SortedBy(s, key, ascending)
    ensures multiset(r) == multiset(s) + multiset{x}
    ensures SortedBy(r, key, ascending)
  {
    if s == [] || InOrder(key(x), key(s[0]), ascending) then [x] + s
    else
      var t := Insert(x, s[1..], key, ascending);
      assert s == [s[0]] + s[1..];
      assert forall i :: 0 <= i < |t| ==> InOrder(key(s[0]), key(t[i]), ascending) by {
        forall i | 0 <= i < |t|
          ensures InOrder(key(s[0]), key(t[i]), ascending)
        {
          assert t[i] in multiset(t);
          assert t[i] == x || t[i] in multiset(s[1..]);
        }
      }
      [s[0]] + t
  }

  /** `[...s].sort(comparator)` for the numeric comparator on `key`: a sorted permutation of `s`. */
  function SortBy<T>(s: seq<T>, key: T -> real, ascending: bool): (r: seq<T>)
    ensures multiset(r) == multiset(s)
    ensures |r| == |s|
    ensures SortedBy(r, key, ascending)
  {
    if s == [] then []
    else
      assert s == [s[0]] + s[1..];
      Insert(s[0], SortBy(s[1..], key, ascending), key, ascending)
  }
}
