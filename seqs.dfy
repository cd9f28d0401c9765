/**
 * The array operations the data tables and the projects section rely on:
 * `filter`, `find`, `flatMap`, and the first-occurrence order of a `Set` built from an array.
 */
module Seqs {
  import opened Wrappers

  /** `a` can be obtained from `b` by deleting elements: the order of `a` is the order in `b`. */
  predicate IsSubsequence<T(==)>(a: seq<T>, b: seq<T>)
    decreases |b|
  {
    a == [] ||
    (b != [] && ((a[0] == b[0] && IsSubsequence(a[1..], b[1..])) || IsSubsequence(a, b[1..])))
  }

  predicate NoDuplicates<T(==)>(s: seq<T>) {
    forall i, j :: 0 <= i < j < |s| ==> s[i] != s[j]
  }

  /** `s.filter(p)`: every element satisfying `p`, each as often as in `s`, in the order of `s`. */
  function Filter<T(==,!new)>(p: T -> bool, s: seq<T>): (r: seq<T>)
    ensures forall x :: x in r <==> x in s && p(x)
    ensures forall x :: multiset(r)[x] == if p(x) then multiset(s)[x] else 0
    ensures IsSubsequence(r, s)
    decreases |s|
  {
    if s == [] then []
    else
      var rest := Filter(p, s[1..]);
      assert s == [s[0]] + s[1..];
      if p(s[0]) then [s[0]] + rest else rest
  }

  /** Filtering with two predicates that agree on every element of `s` gives the same result. */
  lemma {:induction false} FilterCongruent<T(!new)>(p: T -> bool, q: T -> bool, s: seq<T>)
    requires forall x :: x in s ==> p(x) == q(x)
    ensures Filter(p, s) == Filter(q, s)
    decreases |s|
  {
    if s != [] {
      assert forall x :: x in s[1..] ==> x in s;
      FilterCongruent(p, q, s[1..]);
    }
  }

  /** Index of the first element satisfying `p`, or None when there is none. */
  function FirstIndex<T>(p: T -> bool, s: seq<T>): (r: Option<nat>)
    ensures r.None? <==> forall i :: 0 <= i < |s| ==> !p(s[i])
    ensures r.Some? ==> r.value < |s| && p(s[r.value]) && forall j :: 0 <= j < r.value ==> !p(s[j])
    decreases |s|
  {
    if s == [] then None
    else if p(s[0]) then Some(0)
    else
      match FirstIndex(p, s[1..])
      case None => None
      case Some(i) => Some(i + 1)
  }

  /** `s.find(p)`: the first element satisfying `p`, or None (`undefined`). */
  function Find<T>(p: T -> bool, s: seq<T>): (r: Option<T>)
    ensures r.None? <==> forall i :: 0 <= i < |s| ==> !p(s[i])
    ensures r.Some? ==> exists i :: 0 <= i < |s| && s[i] == r.value && p(s[i]) && forall j :: 0 <= j < i ==> !p(s[j])
  {
    match FirstIndex(p, s)
    case None => None
    case Some(i) => Some(s[i])
  }

  /** Position of the first occurrence of `x` in `s`. */
  function IndexOf<T(==)>(s: seq<T>, x: T): (r: nat)
    requires x in s
    ensures r < |s| && s[r] == x && forall j :: 0 <= j < r ==> s[j] != x
    decreases |s|
  {
    if s[0] == x then 0 else 1 + IndexOf(s[1..], x)
  }

  /**
   * `[...new Set(s)]`: a Set keeps its elements in insertion order, so each element
   * appears once, at the place of its first occurrence.
   */
  function Dedupe<T(==,!new)>(s: seq<T>): (r: seq<T>)
    ensures NoDuplicates(r)
    ensures forall x :: x in r <==> x in s
    decreases |s|
  {
    if s == [] then []
    else
      var init, last := s[..|s| - 1], s[|s| - 1];
      assert s == init + [last];
      var d := Dedupe(init);
      if last in d then d else d + [last]
  }

  /** The first occurrence of `x` in `s` is also its first occurrence in any extension of `s`. */
  lemma IndexOfExtended<T>(s: seq<T>, t: seq<T>, x: T)
    requires x in s
    ensures IndexOf(s + t, x) == IndexOf(s, x)
  {
    assert (s + t)[IndexOf(s, x)] == x;
  }

  /** The elements of `Dedupe(s)` come in the order of their first occurrences in `s`. */
  lemma {:induction false} DedupeFirstOccurrenceOrder<T(!new)>(s: seq<T>)
    ensures forall i, j :: 0 <= i < j < |Dedupe(s)| ==>
      IndexOf(s, Dedupe(s)[i]) < IndexOf(s, Dedupe(s)[j])
    decreases |s|
  {
    if s != [] {
      var init, last := s[..|s| - 1], s[|s| - 1];
      assert s == init + [last];
      DedupeFirstOccurrenceOrder(init);
      var d := Dedupe(init);
      forall x | x in d
        ensures IndexOf(s, x) == IndexOf(init, x) < |init|
      {
        IndexOfExtended(init, [last], x);
      }
      if last !in d {
        assert IndexOf(s, last) == |init|;
      }
    }
  }

  /** `ss.flat()`: the sequences of `ss` one after another. */
  function Flatten<T>(ss: seq<seq<T>>): (r: seq<T>)
    ensures |r| == TotalLength(ss)
    decreases |ss|
  {
    if ss == [] then [] else Flatten(ss[..|ss| - 1]) + ss[|ss| - 1]
  }

  /** Sum of the lengths of the sequences in `ss`. */
  function TotalLength<T>(ss: seq<seq<T>>): nat
    decreases |ss|
  {
    if ss == [] then 0 else TotalLength(ss[..|ss| - 1]) + |ss[|ss| - 1]|
  }

  /** Flattening a prefix of `ss` gives a prefix of the flattening of `ss`. */
  lemma {:induction false} FlattenPrefix<T>(ss: seq<seq<T>>, k: nat)
    requires k <= |ss|
    ensures Flatten(ss[..k]) <= Flatten(ss)
    decreases |ss|
  {
    if k < |ss| {
      var init := ss[..|ss| - 1];
      assert ss[..k] == init[..k];
      FlattenPrefix(init, k);
    } else {
      assert ss[..k] == ss;
    }
  }

  /** Sequence `i` of `ss` sits in `Flatten(ss)` right after the sequences before it. */
  lemma FlattenBlock<T>(ss: seq<seq<T>>, i: nat)
    requires i < |ss|
    ensures TotalLength(ss[..i]) + |ss[i]| <= |Flatten(ss)|
    ensures Flatten(ss)[TotalLength(ss[..i]) .. TotalLength(ss[..i]) + |ss[i]|] == ss[i]
  {
    FlattenPrefix(ss, i + 1);
    var pre := ss[..i + 1];
    assert pre[..|pre| - 1] == ss[..i];
    assert Flatten(pre) == Flatten(ss[..i]) + ss[i];
  }

  /** An element is in `Flatten(ss)` exactly when it is in one of the sequences of `ss`. */
  lemma {:induction false} FlattenMembers<T>(ss: seq<seq<T>>, x: T)
    ensures x in Flatten(ss) <==> exists i :: 0 <= i < |ss| && x in ss[i]
    decreases |ss|
  {
    if ss != [] {
      var init := ss[..|ss| - 1];
      FlattenMembers(init, x);
      if x in Flatten(ss) && x !in ss[|ss| - 1] {
        var i :| 0 <= i < |init| && x in init[i];
        assert x in ss[i];
      }
      if exists i :: 0 <= i < |ss| && x in ss[i] {
        var i :| 0 <= i < |ss| && x in ss[i];
        if i < |init| {
          assert x in init[i];
        }
      }
    }
  }
}
