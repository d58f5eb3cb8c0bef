/**
 * `Array.prototype.sort` with a numeric comparator `(a, b) => key(a) - key(b)`:
 * a stable sort, ascending in `key` (`SortByStable`). A descending sort is the ascending sort on
 * the negated key.
 */
module Sorting {

  import opened Seqs

  predicate SortedBy<T>(s: seq<T>, key: T -> real) {
    forall i, j | 0 <= i < j < |s| :: key(s[i]) <= key(s[j])
  }

  /** `x` placed before the first element whose key is not smaller than its own. */
  function Insert<T(==)>(x: T, s: seq<T>, key: T -> real): (r: seq<T>)
    ensures multiset(r) == multiset(s) + multiset{x}
  {
    if s == [] || key(x) <= key(s[0]) then
      [x] + s
    else
      assert s == [s[0]] + s[1..];
      [s[0]] + Insert(x, s[1..], key)
  }

  lemma {:induction false} InsertSorted<T>(x: T, s: seq<T>, key: T -> real)
    requires SortedBy(s, key)
    ensures SortedBy(Insert(x, s, key), key)
  {
    if s != [] && key(x) > key(s[0]) {
      var t := Insert(x, s[1..], key);
      InsertSorted(x, s[1..], key);
      forall j | 0 <= j < |t| ensures key(s[0]) <= key(t[j]) {
        assert t[j] in multiset(t);
        assert t[j] == x || t[j] in multiset(s[1..]);
        if t[j] != x {
          var k :| 0 <= k < |s[1..]| && s[1..][k] == t[j];
          assert s[k + 1] == t[j];
        }
      }
      var r := [s[0]] + t;
      assert forall i | 0 < i < |r| :: r[i] == t[i - 1];
    }
  }

  /** The sort: a permutation of `s`, ascending in `key`. */
  function SortBy<T(==)>(s: seq<T>, key: T -> real): (r: seq<T>)
    ensures multiset(r) == multiset(s)
    ensures |r| == |s|
    ensures SortedBy(r, key)
  {
    if s == [] then []
    else
      assert s == [s[0]] + s[1..];
      InsertSorted(s[0], SortBy(s[1..], key), key);
      var r := Insert(s[0], SortBy(s[1..], key), key);
      assert |r| == |multiset(r)|;
      r
  }

  /** Inserting `x` puts it ahead of every element with the same key. */
  lemma {:induction false} InsertFilter<T>(x: T, s: seq<T>, key: T -> real, v: real)
    ensures Filter(Insert(x, s, key), (y: T) => key(y) == v)
            == (if key(x) == v then [x] else []) + Filter(s, (y: T) => key(y) == v)
  {
    var p := (y: T) => key(y) == v;
    if s == [] || key(x) <= key(s[0]) {
      FilterCons(x, s, p);
    } else {
      assert s == [s[0]] + s[1..];
      InsertFilter(x, s[1..], key, v);
      FilterCons(s[0], Insert(x, s[1..], key), p);
      FilterCons(s[0], s[1..], p);
    }
  }

  /** Stability: the elements with any one key keep their input order. */
  lemma {:induction false} SortByStable<T>(s: seq<T>, key: T -> real, v: real)
    ensures Filter(SortBy(s, key), (y: T) => key(y) == v) == Filter(s, (y: T) => key(y) == v)
  {
    if s != [] {
      assert s == [s[0]] + s[1..];
      SortByStable(s[1..], key, v);
      InsertFilter(s[0], SortBy(s[1..], key), key, v);
      FilterCons(s[0], s[1..], (y: T) => key(y) == v);
    }
  }

  /** Sorting keeps exactly the elements it was given. */
  lemma SortByMembers<T>(s: seq<T>, key: T -> real, x: T)
    ensures x in SortBy(s, key) <==> x in s
  {
    var r := SortBy(s, key);
    assert x in r <==> x in multiset(r);
    assert x in s <==> x in multiset(s);
  }

  /** The sum of `w` over a list. */
  function SumOf<T>(s: seq<T>, w: T -> int): int {
    if s == [] then 0 else w(s[0]) + SumOf(s[1..], w)
  }

  /** A sum of terms between `lo` and `hi` lies between `|s| * lo` and `|s| * hi`. */
  lemma {:induction false} SumOfBounds<T>(s: seq<T>, w: T -> int, lo: int, hi: int)
    requires forall i | 0 <= i < |s| :: lo <= w(s[i]) <= hi
    ensures |s| * lo <= SumOf(s, w) <= |s| * hi
  {
    if s != [] {
      SumOfBounds(s[1..], w, lo, hi);
    }
  }

  lemma {:induction false} InsertSum<T>(x: T, s: seq<T>, key: T -> real, w: T -> int)
    ensures SumOf(Insert(x, s, key), w) == w(x) + SumOf(s, w)
  {
    if s != [] && key(x) > key(s[0]) {
      InsertSum(x, s[1..], key, w);
      assert ([s[0]] + Insert(x, s[1..], key))[1..] == Insert(x, s[1..], key);
    } else {
      assert ([x] + s)[1..] == s;
    }
  }

  /** Sorting does not change a sum over the list. */
  lemma {:induction false} SortBySum<T>(s: seq<T>, key: T -> real, w: T -> int)
    ensures SumOf(SortBy(s, key), w) == SumOf(s, w)
  {
    if s != [] {
      SortBySum(s[1..], key, w);
      InsertSum(s[0], SortBy(s[1..], key), key, w);
    }
  }

  /** Filtering a sorted list leaves it sorted. */
  lemma {:induction false} FilterSortedBy<T>(s: seq<T>, p: T -> bool, key: T -> real)
    requires SortedBy(s, key)
    ensures SortedBy(Filter(s, p), key)
  {
    if s != [] {
      var q, last := s[..|s| - 1], s[|s| - 1];
      assert SortedBy(q, key);
      FilterSortedBy(q, p, key);
      var f := Filter(q, p);
      if p(last) {
        forall i | 0 <= i < |f| ensures key(f[i]) <= key(last) {
          FilterMember(q, p, f[i]);
          var k :| 0 <= k < |q| && q[k] == f[i];
          assert s[k] == q[k];
        }
        var f' := f + [last];
        assert forall i | 0 <= i < |f| :: f'[i] == f[i];
      }
    }
  }
}
