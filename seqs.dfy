/**
 * Sequence operations the rest of the model is built on: the
 * `Array.prototype.filter` / `find` pair and an ordering by a numeric key
 * (what a MongoDB `sort({ key: 1 })` delivers).
 */
module Seqs {
  import opened Wrappers

  /** The elements of `s` that satisfy `p`, in their original order. */
  function Filter<T>(s: seq<T>, p: T -> bool): (r: seq<T>)
    ensures |r| <= |s|
  {
    if s == [] then []
    else
      assert s == s[..|s| - 1] + [s[|s| - 1]];
      var init := Filter(s[..|s| - 1], p);
      if p(s[|s| - 1]) then init + [s[|s| - 1]] else init
  }

  /** Filtering one more element at the end. */
  lemma FilterSnoc<T>(s: seq<T>, x: T, p: T -> bool)
    ensures Filter(s + [x], p) == Filter(s, p) + (if p(x) then [x] else [])
  {
    assert (s + [x])[..|s + [x]| - 1] == s;
  }

  /** `x` survives the filter exactly when it occurs in `s` and satisfies `p`. */
  lemma {:induction false} FilterMembership<T>(s: seq<T>, p: T -> bool, x: T)
    ensures x in Filter(s, p) <==> x in s && p(x)
  {
    if s != [] {
      var init, last := s[..|s| - 1], s[|s| - 1];
      assert s == init + [last];
      FilterMembership(init, p, x);
      FilterSnoc(init, last, p);
    }
  }

  /** An element occurs in the filtered sequence as often as in `s` if it satisfies `p`, and never otherwise. */
  lemma {:induction false} FilterMultiplicity<T>(s: seq<T>, p: T -> bool, x: T)
    ensures multiset(Filter(s, p))[x] == if p(x) then multiset(s)[x] else 0
  {
    if s != [] {
      var init, last := s[..|s| - 1], s[|s| - 1];
      assert s == init + [last];
      FilterMultiplicity(init, p, x);
      FilterSnoc(init, last, p);
    }
  }

  /** Filtering a permutation gives a permutation, hence the same count. */
  lemma FilterPermutation<T(!new)>(s: seq<T>, t: seq<T>, p: T -> bool)
    requires multiset(s) == multiset(t)
    ensures multiset(Filter(s, p)) == multiset(Filter(t, p))
    ensures |Filter(s, p)| == |Filter(t, p)|
  {
    var ms, mt := multiset(Filter(s, p)), multiset(Filter(t, p));
    forall x ensures ms[x] == mt[x] {
      FilterMultiplicity(s, p, x);
      FilterMultiplicity(t, p, x);
    }
    assert ms == mt;
    assert |multiset(Filter(s, p))| == |Filter(s, p)|;
    assert |multiset(Filter(t, p))| == |Filter(t, p)|;
  }

  /** Nothing satisfies `p`: the filter is empty. */
  lemma {:induction false} FilterNone<T>(s: seq<T>, p: T -> bool)
    requires forall i :: 0 <= i < |s| ==> !p(s[i])
    ensures Filter(s, p) == []
  {
    if s != [] {
      FilterNone(s[..|s| - 1], p);
    }
  }

  /** Everything satisfies `p`: the filter keeps the whole sequence. */
  lemma {:induction false} FilterAll<T>(s: seq<T>, p: T -> bool)
    requires forall i :: 0 <= i < |s| ==> p(s[i])
    ensures Filter(s, p) == s
  {
    if s != [] {
      FilterAll(s[..|s| - 1], p);
      assert s == s[..|s| - 1] + [s[|s| - 1]];
    }
  }

  /** Filtering twice is filtering once by the conjunction `r`. */
  lemma {:induction false} FilterFilter<T>(s: seq<T>, p: T -> bool, q: T -> bool, r: T -> bool)
    requires forall x :: r(x) == (p(x) && q(x))
    ensures Filter(Filter(s, p), q) == Filter(s, r)
  {
    if s != [] {
      var init, last := s[..|s| - 1], s[|s| - 1];
      FilterFilter(init, p, q, r);
      if p(last) {
        FilterSnoc(Filter(init, p), last, q);
      }
    }
  }

  /** Two disjoint filters together count what their disjunction `r` counts. */
  lemma {:induction false} FilterDisjointSum<T>(s: seq<T>, p: T -> bool, q: T -> bool, r: T -> bool)
    requires forall x :: !(p(x) && q(x))
    requires forall x :: r(x) == (p(x) || q(x))
    ensures |Filter(s, p)| + |Filter(s, q)| == |Filter(s, r)|
  {
    if s != [] {
      FilterDisjointSum(s[..|s| - 1], p, q, r);
    }
  }

  /** No two positions of `s` both satisfy `p`: then `p` selects at most one element. */
  lemma {:induction false} AtMostOneMatch<T>(s: seq<T>, p: T -> bool)
    requires forall i, j :: 0 <= i < j < |s| ==> !(p(s[i]) && p(s[j]))
    ensures |Filter(s, p)| <= 1
  {
    if s != [] {
      var init, last := s[..|s| - 1], s[|s| - 1];
      assert forall i :: 0 <= i < |init| ==> init[i] == s[i];
      AtMostOneMatch(init, p);
      if p(last) {
        assert forall i :: 0 <= i < |init| ==> !p(init[i]);
        FilterNone(init, p);
      }
    }
  }

  /** The position of the first element satisfying `p` (`Array.prototype.findIndex`, or a `findOne` in natural order). */
  function FirstIndex<T>(s: seq<T>, p: T -> bool): (r: Option<nat>)
    ensures r.None? <==> forall i :: 0 <= i < |s| ==> !p(s[i])
    ensures r.Some? ==> r.value < |s| && p(s[r.value]) && forall j :: 0 <= j < r.value ==> !p(s[j])
  {
    if s == [] then None
    else if p(s[0]) then Some(0)
    else match FirstIndex(s[1..], p)
      case None => None
      case Some(i) => Some(i + 1)
  }

  /** The first element satisfying `p`, if any (`Array.prototype.find`, a `findOne`). */
  function FindFirst<T>(s: seq<T>, p: T -> bool): (r: Option<T>)
    ensures r.None? <==> forall i :: 0 <= i < |s| ==> !p(s[i])
    ensures r.Some? ==> r.value in s && p(r.value)
  {
    match FirstIndex(s, p)
    case None => None
    case Some(i) => Some(s[i])
  }

  /** Appending never changes a first match that already exists, and a missing one is looked for in the appended part. */
  lemma FindFirstAppend<T>(s: seq<T>, t: seq<T>, p: T -> bool)
    ensures FindFirst(s, p).Some? ==> FindFirst(s + t, p) == FindFirst(s, p)
    ensures FindFirst(s, p).None? ==> FindFirst(s + t, p) == FindFirst(t, p)
  {
    var st := s + t;
    assert forall i :: 0 <= i < |s| ==> st[i] == s[i];
    assert forall i :: 0 <= i < |t| ==> st[|s| + i] == t[i];
    match FirstIndex(s, p)
    case Some(i) =>
      var k := FirstIndex(st, p);
      assert k.Some?;
      assert k.value == i;
    case None =>
      match FirstIndex(t, p)
      case None =>
        assert forall i :: 0 <= i < |st| ==> !p(st[i]) by {
          forall i | 0 <= i < |st| ensures !p(st[i]) {
            if i >= |s| { assert st[i] == t[i - |s|]; }
          }
        }
      case Some(j) =>
        var k := FirstIndex(st, p);
        assert p(st[|s| + j]);
        assert k.Some?;
        assert k.value == |s| + j;
  }

  /** Every earlier element has a key no larger than every later one. */
  predicate SortedBy<T>(s: seq<T>, key: T -> int) {
    forall i, j :: 0 <= i < j < |s| ==> key(s[i]) <= key(s[j])
  }

  /** Inserts `x` into a sorted sequence after every element whose key is not larger. */
  function InsertBy<T>(x: T, s: seq<T>, key: T -> int): (r: seq<T>)
    requires SortedBy(s, key)
    ensures SortedBy(r, key)
    ensures multiset(r) == multiset(s) + multiset{x}
    ensures forall k :: 0 <= k < |r| ==> key(x) <= key(r[k]) || (s != [] && key(s[0]) <= key(r[k]))
  {
    if s == [] then [x]
    else if key(x) < key(s[0]) then [x] + s
    else
      assert s == [s[0]] + s[1..];
      [s[0]] + InsertBy(x, s[1..], key)
  }

  /** Insertion sort by `key`: a sorted permutation of `s`. */
  function SortBy<T>(s: seq<T>, key: T -> int): (r: seq<T>)
    ensures SortedBy(r, key)
    ensures multiset(r) == multiset(s)
  {
    if s == [] then []
    else
      assert s == s[..|s| - 1] + [s[|s| - 1]];
      InsertBy(s[|s| - 1], SortBy(s[..|s| - 1], key), key)
  }
}
