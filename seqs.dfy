/** Sequence facts shared by the grouping code: distinctness and first occurrences. */
module Seqs {

  import opened Wrappers

  predicate Distinct<T(==)>(s: seq<T>) {
    forall i, j | 0 <= i < j < |s| :: s[i] != s[j]
  }

  /**
   * Each element once, in the order of its first occurrence: what
   * `[...new Set(xs)]` and the key order of an object filled by a `reduce`
   * (`Object.entries`) both give.
   */
  function Dedupe<T(==)>(xs: seq<T>): (r: seq<T>)
    ensures Distinct(r)
    ensures forall i | 0 <= i < |r| :: r[i] in xs
    ensures forall i | 0 <= i < |xs| :: xs[i] in r
  {
    if xs == [] then []
    else
      var p := Dedupe(xs[..|xs| - 1]);
      var x := xs[|xs| - 1];
      assert xs == xs[..|xs| - 1] + [x];
      if x in p then p else p + [x]
  }

  /** `s.filter(p)`: the elements satisfying `p`, in their order. */
  function Filter<T>(s: seq<T>, p: T -> bool): (r: seq<T>)
    ensures |r| <= |s|
    ensures forall i | 0 <= i < |r| :: p(r[i])
  {
    if s == [] then []
    else
      var t := Filter(s[..|s| - 1], p);
      if p(s[|s| - 1]) then t + [s[|s| - 1]] else t
  }

  /** An element is kept exactly when it is in `s` and satisfies `p`. */
  lemma {:induction false} FilterMember<T>(s: seq<T>, p: T -> bool, x: T)
    ensures x in Filter(s, p) <==> x in s && p(x)
  {
    if s != [] {
      var q := s[..|s| - 1];
      FilterMember(q, p, x);
      assert s == q + [s[|s| - 1]];
    }
  }

  /** An element of a list is an element of every permutation of it. */
  lemma PermutationMember<T>(a: seq<T>, b: seq<T>, k: nat)
    requires multiset(a) == multiset(b) && k < |a|
    ensures a[k] in b
  {
    assert a[k] in multiset(a);
  }

  /** An element of a permutation of a list is at some index of that list. */
  lemma PermutationIndex<T>(a: seq<T>, b: seq<T>, x: T) returns (k: nat)
    requires multiset(a) == multiset(b) && x in b
    ensures k < |a| && a[k] == x
  {
    assert x in multiset(b);
    k :| 0 <= k < |a| && a[k] == x;
  }

  /** A filter that keeps everything is the identity. */
  lemma {:induction false} FilterAll<T>(s: seq<T>, p: T -> bool)
    requires forall i | 0 <= i < |s| :: p(s[i])
    ensures Filter(s, p) == s
  {
    if s != [] {
      FilterAll(s[..|s| - 1], p);
      assert s == s[..|s| - 1] + [s[|s| - 1]];
    }
  }

  /** Two filters in a row are one filter on the conjunction. */
  lemma {:induction false} FilterThen<T>(s: seq<T>, p: T -> bool, q: T -> bool, r: T -> bool)
    requires forall x :: r(x) == (p(x) && q(x))
    ensures Filter(Filter(s, p), q) == Filter(s, r)
  {
    if s != [] {
      var t, last := s[..|s| - 1], s[|s| - 1];
      FilterThen(t, p, q, r);
      var f := Filter(t, p);
      if p(last) {
        assert (f + [last])[..|f + [last]| - 1] == f;
      }
    }
  }

  /** A filter stage that runs only when `active` narrows `p` to `r`; otherwise it changes nothing. */
  lemma Narrow<T>(s: seq<T>, p: T -> bool, active: bool, q: T -> bool, r: T -> bool)
    requires forall x :: r(x) == (p(x) && (!active || q(x)))
    ensures (if active then Filter(Filter(s, p), q) else Filter(s, p)) == Filter(s, r)
  {
    if active {
      FilterThen(s, p, q, r);
    } else {
      FilterThen(s, p, (x: T) => true, r);
      FilterAll(Filter(s, p), (x: T) => true);
    }
  }

  /** A filter that keeps nothing yields the empty sequence. */
  /** Filtering a list with a new head: the head if it passes, then the filtered tail. */
  lemma {:induction false} FilterCons<T>(x: T, s: seq<T>, p: T -> bool)
    ensures Filter([x] + s, p) == (if p(x) then [x] else []) + Filter(s, p)
  {
    if s != [] {
      var q := s[..|s| - 1];
      assert ([x] + s)[..|[x] + s| - 1] == [x] + q;
      FilterCons(x, q, p);
    }
  }

  lemma {:induction false} FilterNone<T>(s: seq<T>, p: T -> bool)
    requires forall i | 0 <= i < |s| :: !p(s[i])
    ensures Filter(s, p) == []
  {
    if s != [] {
      FilterNone(s[..|s| - 1], p);
    }
  }

  /** `s.findIndex(p)` as an option: the first position satisfying `p`, if any. */
  function FindIndex<T>(s: seq<T>, p: T -> bool): (r: Option<nat>)
    ensures r.Some? ==> r.value < |s| && p(s[r.value]) && forall j | 0 <= j < r.value :: !p(s[j])
    ensures r.None? ==> forall j | 0 <= j < |s| :: !p(s[j])
  {
    if s == [] then None
    else if p(s[0]) then Some(0)
    else match FindIndex(s[1..], p)
      case Some(k) => Some(k + 1)
      case None => None
  }

  /** `f` of each element that `skip` does not reject, in order: a loop with a `continue`. */
  function MapUnless<T, U>(s: seq<T>, skip: T -> bool, f: T -> U): (r: seq<U>)
    ensures |r| <= |s|
  {
    if s == [] then []
    else
      var p := MapUnless(s[..|s| - 1], skip, f);
      if skip(s[|s| - 1]) then p else p + [f(s[|s| - 1])]
  }

  /** The results are exactly the images of the elements that are not skipped. */
  lemma {:induction false} MapUnlessMember<T, U>(s: seq<T>, skip: T -> bool, f: T -> U)
    ensures forall y | y in MapUnless(s, skip, f) :: exists i | 0 <= i < |s| :: !skip(s[i]) && y == f(s[i])
    ensures forall i | 0 <= i < |s| && !skip(s[i]) :: f(s[i]) in MapUnless(s, skip, f)
  {
    if s != [] {
      var q := s[..|s| - 1];
      MapUnlessMember(q, skip, f);
      assert forall i | 0 <= i < |q| :: q[i] == s[i];
    }
  }

  /** Removing a skipped element changes nothing. */
  lemma {:induction false} MapUnlessSkip<T, U>(s: seq<T>, skip: T -> bool, f: T -> U, i: nat)
    requires i < |s| && skip(s[i])
    ensures MapUnless(s, skip, f) == MapUnless(s[..i] + s[i + 1..], skip, f)
    decreases |s|
  {
    var q := s[..|s| - 1];
    var t := s[..i] + s[i + 1..];
    if i == |s| - 1 {
      assert t == q;
    } else {
      MapUnlessSkip(q, skip, f, i);
      assert t[..|t| - 1] == q[..i] + q[i + 1..];
      assert t[|t| - 1] == s[|s| - 1];
    }
  }
}
