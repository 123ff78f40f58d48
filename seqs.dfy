/** The list operations behind the source's `filter`, `find`, `map` and
    (stable) `sort` calls. */
module Seqs {
  import opened Wrappers

  /** `s.filter(keep)`: the elements that satisfy `keep`, each kept as often
      as it occurs. */
  function Filter<T(!new)>(keep: T -> bool, s: seq<T>): (r: seq<T>)
    ensures |r| <= |s|
    ensures forall x :: multiset(r)[x] == if keep(x) then multiset(s)[x] else 0
    ensures forall x :: x in r <==> x in s && keep(x)
    ensures forall k :: 0 <= k < |r| ==> keep(r[k])
  {
    if s == [] then []
    else
      assert s == [s[0]] + s[1..];
      if keep(s[0]) then [s[0]] + Filter(keep, s[1..]) else Filter(keep, s[1..])
  }

  /** `a` is `b` with some elements left out and the rest in their order. */
  predicate IsSubsequence<T(==)>(a: seq<T>, b: seq<T>)
    decreases |b|
  {
    a == [] || (b != [] && ((a[0] == b[0] && IsSubsequence(a[1..], b[1..])) || IsSubsequence(a, b[1..])))
  }

  /** Filtering keeps the order of what it keeps. */
  lemma {:induction false} FilterIsSubsequence<T(!new)>(keep: T -> bool, s: seq<T>)
    ensures IsSubsequence(Filter(keep, s), s)
  {
    if s != [] {
      FilterIsSubsequence(keep, s[1..]);
      if keep(s[0]) {
        assert Filter(keep, s)[1..] == Filter(keep, s[1..]);
      }
    }
  }

  /** Filtering with a condition every element meets changes nothing. */
  lemma {:induction false} FilterAll<T(!new)>(keep: T -> bool, s: seq<T>)
    requires forall k :: 0 <= k < |s| ==> keep(s[k])
    ensures Filter(keep, s) == s
  {
    if s != [] {
      FilterAll(keep, s[1..]);
    }
  }

  /** A property every element has holds of every element kept. */
  lemma FilterKeepsAll<T(!new)>(keep: T -> bool, p: T -> bool, s: seq<T>)
    requires forall k :: 0 <= k < |s| ==> p(s[k])
    ensures forall k :: 0 <= k < |Filter(keep, s)| ==> p(Filter(keep, s)[k])
  {
    var r := Filter(keep, s);
    forall k | 0 <= k < |r| ensures p(r[k]) {
      assert r[k] in s;
      var j :| 0 <= j < |s| && s[j] == r[k];
    }
  }

  lemma AppendKeepsAll<T>(p: T -> bool, s: seq<T>, x: T)
    requires forall k :: 0 <= k < |s| ==> p(s[k])
    requires p(x)
    ensures forall k :: 0 <= k < |s + [x]| ==> p((s + [x])[k])
  {
    forall k | 0 <= k < |s + [x]| ensures p((s + [x])[k]) {
      if k < |s| {
        assert (s + [x])[k] == s[k];
      }
    }
  }

  /** A prefix of a sorted sequence is sorted and drawn from it. */
  lemma SortedPrefix<T>(s: seq<T>, key: T -> int, n: nat)
    requires SortedBy(s, key) && n <= |s|
    ensures SortedBy(s[..n], key)
    ensures multiset(s[..n]) <= multiset(s)
    ensures forall x :: x in s[..n] ==> x in multiset(s)
  {
    assert s == s[..n] + s[n..];
  }

  /** `s.map(f)`. */
  function Map<T, U>(f: T -> U, s: seq<T>): (r: seq<U>)
    ensures |r| == |s|
    ensures forall k :: 0 <= k < |s| ==> r[k] == f(s[k])
  {
    seq(|s|, k requires 0 <= k < |s| => f(s[k]))
  }

  /** `s.find(p)`: the first element that satisfies `p`, if any. */
  function Find<T>(p: T -> bool, s: seq<T>): (r: Option<T>)
    ensures r.Some? <==> exists k :: 0 <= k < |s| && p(s[k])
    ensures r.Some? ==> exists k :: (0 <= k < |s| && s[k] == r.value && p(s[k])
                                     && forall j :: 0 <= j < k ==> !p(s[j]))
  {
    if s == [] then None
    else if p(s[0]) then Some(s[0])
    else
      var r := Find(p, s[1..]);
      assert forall k :: 1 <= k < |s| ==> s[k] == s[1..][k - 1];
      r
  }

  predicate SortedBy<T>(s: seq<T>, key: T -> int) {
    forall i, j :: 0 <= i < j < |s| ==> key(s[i]) <= key(s[j])
  }

  /** Inserts `x` before the first element whose key is not smaller, so
      elements with equal keys keep their relative order. */
  function Insert<T>(x: T, t: seq<T>, key: T -> int): (r: seq<T>)
    requires SortedBy(t, key)
    ensures SortedBy(r, key)
    ensures |r| == |t| + 1
    ensures forall k :: 0 <= k < |r| ==> r[k] == x || r[k] in t
  {
    if t == [] || key(x) <= key(t[0]) then [x] + t
    else
      var rest := Insert(x, t[1..], key);
      assert forall y :: y in t[1..] ==> key(t[0]) <= key(y);
      [t[0]] + rest
  }

  /** Inserting adds `x` and loses nothing. */
  lemma {:induction false} InsertPermutes<T>(x: T, t: seq<T>, key: T -> int)
    requires SortedBy(t, key)
    ensures multiset(Insert(x, t, key)) == multiset(t) + multiset{x}
  {
    if t != [] && key(x) > key(t[0]) {
      InsertPermutes(x, t[1..], key);
      assert t == [t[0]] + t[1..];
    }
  }

  /** `s.sort((a, b) => key(a) - key(b))` (Array.prototype.sort is stable). */
  function SortBy<T>(s: seq<T>, key: T -> int): (r: seq<T>)
    ensures SortedBy(r, key)
    ensures multiset(r) == multiset(s)
    ensures |r| == |s|
  {
    if s == [] then []
    else
      assert s == [s[0]] + s[1..];
      InsertPermutes(s[0], SortBy(s[1..], key), key);
      Insert(s[0], SortBy(s[1..], key), key)
  }
}
