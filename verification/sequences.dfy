/**
 * Swift's collection operations used by the app: `filter` (keep the
 * elements a predicate accepts, in order) and `sort` (order a collection by
 * a "less than" closure). Swift's sort is not stable; the model's is a
 * stable insertion sort, which is one of the orders Swift may produce.
 */
module Sequences {

  /** `s.filter(p)`. */
  function Filter<T>(s: seq<T>, p: T -> bool): seq<T>
  {
    if s == [] then []
    else if p(s[0]) then [s[0]] + Filter(s[1..], p)
    else Filter(s[1..], p)
  }

  /** Filtering keeps every accepted element as often as it occurs and
      drops every other one. */
  lemma {:induction false} FilterCount<T>(s: seq<T>, p: T -> bool, x: T)
    ensures multiset(Filter(s, p))[x] == if p(x) then multiset(s)[x] else 0
  {
    if s != [] {
      FilterCount(s[1..], p, x);
      assert s == [s[0]] + s[1..];
    }
  }

  /** Filtering keeps order: the survivors of a prefix come before those of
      the rest. */
  lemma {:induction false} FilterAppend<T>(a: seq<T>, b: seq<T>, p: T -> bool)
    ensures Filter(a + b, p) == Filter(a, p) + Filter(b, p)
  {
    if a == [] {
      assert a + b == b;
    } else {
      FilterAppend(a[1..], b, p);
      assert (a + b)[1..] == a[1..] + b;
    }
  }

  lemma {:induction false} FilterMembership<T>(s: seq<T>, p: T -> bool, x: T)
    ensures x in Filter(s, p) <==> x in s && p(x)
  {
    FilterCount(s, p, x);
    assert x in Filter(s, p) <==> multiset(Filter(s, p))[x] > 0;
    assert x in s <==> multiset(s)[x] > 0;
  }

  /** Filtering never lengthens; it keeps the length exactly when every
      element is accepted, and empties the sequence exactly when none is. */
  lemma {:induction false} FilterSize<T>(s: seq<T>, p: T -> bool)
    ensures |Filter(s, p)| <= |s|
    ensures |Filter(s, p)| == |s| <==> forall x :: x in s ==> p(x)
    ensures |Filter(s, p)| == 0 <==> forall x :: x in s ==> !p(x)
  {
    if s != [] {
      FilterSize(s[1..], p);
      assert s == [s[0]] + s[1..];
      if !p(s[0]) {
        assert |Filter(s, p)| < |s|;
      }
    }
  }

  // ---------------------------------------------------------------------
  // Sorting
  // ---------------------------------------------------------------------

  /** No later element is less than an earlier one. */
  ghost predicate Sorted<T>(s: seq<T>, less: (T, T) -> bool)
  {
    forall i, j :: 0 <= i < j < |s| ==> !less(s[j], s[i])
  }

  /** `less` is a strict weak ordering on the elements of `s`: asymmetric,
      and incomparability (`!less` both ways) is transitive. This is what
      Swift's `sort` demands of its closure. */
  ghost predicate StrictWeakOrderOn<T>(s: seq<T>, less: (T, T) -> bool)
  {
    && (forall a, b :: a in s && b in s && less(a, b) ==> !less(b, a))
    && (forall a, b, c :: a in s && b in s && c in s && !less(a, b) && !less(b, c) ==> !less(a, c))
  }

  /** Places `x` in front of the first element of `s` that is not less than it. */
  function Insert<T>(x: T, s: seq<T>, less: (T, T) -> bool): seq<T>
  {
    if s == [] then [x]
    else if less(s[0], x) then [s[0]] + Insert(x, s[1..], less)
    else [x] + s
  }

  /** `s.sort(less)`. */
  function SortBy<T>(s: seq<T>, less: (T, T) -> bool): seq<T>
  {
    if s == [] then [] else Insert(s[0], SortBy(s[1..], less), less)
  }

  lemma {:induction false} InsertPermutation<T>(x: T, s: seq<T>, less: (T, T) -> bool)
    ensures multiset(Insert(x, s, less)) == multiset(s) + multiset{x}
  {
    if s != [] && less(s[0], x) {
      InsertPermutation(x, s[1..], less);
      assert s == [s[0]] + s[1..];
    }
  }

  /** Sorting rearranges and neither adds nor drops an element, whatever
      the closure. */
  lemma {:induction false} SortByPermutation<T>(s: seq<T>, less: (T, T) -> bool)
    ensures multiset(SortBy(s, less)) == multiset(s)
  {
    if s != [] {
      SortByPermutation(s[1..], less);
      InsertPermutation(s[0], SortBy(s[1..], less), less);
      assert s == [s[0]] + s[1..];
    }
  }

  lemma {:induction false} InsertSorted<T>(x: T, s: seq<T>, less: (T, T) -> bool, all: seq<T>)
    requires StrictWeakOrderOn(all, less)
    requires x in all && forall y :: y in s ==> y in all
    requires Sorted(s, less)
    ensures Sorted(Insert(x, s, less), less)
  {
    if s == [] {
    } else if less(s[0], x) {
      var t := s[1..];
      InsertSorted(x, t, less, all);
      InsertPermutation(x, t, less);
      var r := Insert(x, t, less);
      forall y | y in r
        ensures !less(y, s[0])
      {
        assert y in multiset(r);
        if y != x {
          assert y in t;
          var j :| 0 <= j < |t| && t[j] == y;
          assert s[j + 1] == y;
        }
      }
      var r' := [s[0]] + r;
      forall i, j | 0 <= i < j < |r'|
        ensures !less(r'[j], r'[i])
      {
        if i == 0 {
          assert r'[j] == r[j - 1];
          assert r[j - 1] in r;
        }
      }
    } else {
      var r' := [x] + s;
      forall i, j | 0 <= i < j < |r'|
        ensures !less(r'[j], r'[i])
      {
        if i == 0 {
          assert r'[j] == s[j - 1];
          assert s[j - 1] in all && s[0] in all;
          assert !less(s[j - 1], s[0]) || j - 1 == 0;
        }
      }
    }
  }

  /** With a strict weak ordering, the sorted sequence is in order. */
  lemma {:induction false} SortBySorted<T>(s: seq<T>, less: (T, T) -> bool)
    requires StrictWeakOrderOn(s, less)
    ensures Sorted(SortBy(s, less), less)
  {
    if s != [] {
      var t := s[1..];
      assert StrictWeakOrderOn(t, less) by {
        forall y | y in t ensures y in s { }
      }
      SortBySorted(t, less);
      SortByPermutation(t, less);
      forall y | y in SortBy(t, less)
        ensures y in s
      {
        assert y in multiset(SortBy(t, less));
        assert y in t;
      }
      InsertSorted(s[0], SortBy(t, less), less, s);
    }
  }
}
