/** Order-preserving filtering and sorting of sequences, the two array
    operations (`Array.prototype.filter`, `Array.prototype.sort`) that every
    list view of the storefront is built from. */
module Seqs {

  /** The elements of `s` that satisfy `p`, in their original order. */
  function Filter<T>(s: seq<T>, p: T -> bool): (r: seq<T>)
    ensures |r| <= |s|
    ensures forall x :: x in r ==> x in s && p(x)
    ensures forall x :: x in s && p(x) ==> x in r
    ensures multiset(r) <= multiset(s)
  {
    if s == [] then []
    else
      var rest := Filter(s[1..], p);
      assert s == [s[0]] + s[1..];
      if p(s[0]) then [s[0]] + rest else rest
  }

  /** Filtering distributes over concatenation: the relative order of the
      kept elements is the order they had in the input. */
  lemma {:induction false} FilterAppend<T>(a: seq<T>, b: seq<T>, p: T -> bool)
    ensures Filter(a + b, p) == Filter(a, p) + Filter(b, p)
  {
    if a == [] {
      assert a + b == b;
    } else {
      assert (a + b)[1..] == a[1..] + b;
      FilterAppend(a[1..], b, p);
    }
  }

  /** A filter whose test every element passes keeps the whole sequence. */
  lemma {:induction false} FilterKeepsAll<T>(s: seq<T>, p: T -> bool)
    requires forall i :: 0 <= i < |s| ==> p(s[i])
    ensures Filter(s, p) == s
  {
    if s != [] {
      FilterKeepsAll(s[1..], p);
    }
  }

  /** Number of elements of `s` that satisfy `p`. */
  function Count<T>(s: seq<T>, p: T -> bool): (n: nat)
    ensures n <= |s|
  {
    if s == [] then 0 else (if p(s[0]) then 1 else 0) + Count(s[1..], p)
  }

  /** The filter's length is the number of elements that pass its test, so
      exactly the failing elements are dropped. */
  lemma {:induction false} FilterLength<T>(s: seq<T>, p: T -> bool)
    ensures |Filter(s, p)| == Count(s, p)
    ensures |s| - |Filter(s, p)| == Count(s, x => !p(x))
  {
    if s != [] {
      FilterLength(s[1..], p);
    }
  }

  /** `le` is a total preorder on the elements of `u`. */
  ghost predicate TotalPreorderOn<T>(u: seq<T>, le: (T, T) -> bool)
  {
    && (forall a, b :: a in u && b in u ==> le(a, b) || le(b, a))
    && (forall a, b, c :: a in u && b in u && c in u && le(a, b) && le(b, c) ==> le(a, c))
  }

  /** Every element of `s` is `le`-before every later one. */
  ghost predicate Sorted<T>(s: seq<T>, le: (T, T) -> bool)
  {
    forall i, j :: 0 <= i < j < |s| ==> le(s[i], s[j])
  }

  /** Inserts `x` in front of the first element it may precede. */
  function Insert<T>(x: T, s: seq<T>, le: (T, T) -> bool): (r: seq<T>)
    ensures multiset(r) == multiset(s) + multiset{x}
  {
    if s == [] || le(x, s[0]) then [x] + s
    else
      assert s == [s[0]] + s[1..];
      [s[0]] + Insert(x, s[1..], le)
  }

  /** Insertion sort: `a` goes before `b` when `le(a, b)`; equal elements
      keep their input order. */
  function Sort<T>(s: seq<T>, le: (T, T) -> bool): (r: seq<T>)
    ensures multiset(r) == multiset(s)
  {
    if s == [] then []
    else
      assert s == [s[0]] + s[1..];
      Insert(s[0], Sort(s[1..], le), le)
  }

  lemma {:induction false} InsertSorted<T>(x: T, s: seq<T>, le: (T, T) -> bool, u: seq<T>)
    requires TotalPreorderOn(u, le)
    requires x in u && forall y :: y in s ==> y in u
    requires Sorted(s, le)
    ensures Sorted(Insert(x, s, le), le)
  {
    if s == [] || le(x, s[0]) {
      var r := [x] + s;
      forall i, j | 0 <= i < j < |r| ensures le(r[i], r[j]) {
        if i == 0 && j > 1 {
          assert s[0] in u && s[j - 1] in u;
        }
      }
    } else {
      assert s[0] in u;
      var t := Insert(x, s[1..], le);
      InsertSorted(x, s[1..], le, u);
      var r := [s[0]] + t;
      forall j | 0 <= j < |t| ensures le(s[0], t[j]) {
        assert t[j] in multiset(t);
        if t[j] != x {
          assert t[j] in multiset(s[1..]);
          var k :| 0 <= k < |s[1..]| && s[1..][k] == t[j];
          assert s[k + 1] == t[j];
        }
      }
      forall i, j | 0 <= i < j < |r| ensures le(r[i], r[j]) {
        if i > 0 {
          assert r[i] == t[i - 1] && r[j] == t[j - 1];
        }
      }
    }
  }

  /** Sorting with a total preorder yields a sorted permutation of the input. */
  lemma {:induction false} SortSorted<T>(s: seq<T>, le: (T, T) -> bool)
    requires TotalPreorderOn(s, le)
    ensures Sorted(Sort(s, le), le)
    ensures multiset(Sort(s, le)) == multiset(s)
  {
    if s != [] {
      SortSortedWithin(s[1..], le, s);
      InsertSorted(s[0], Sort(s[1..], le), le, s);
    }
  }

  lemma {:induction false} SortSortedWithin<T>(s: seq<T>, le: (T, T) -> bool, u: seq<T>)
    requires TotalPreorderOn(u, le)
    requires forall y :: y in s ==> y in u
    ensures Sorted(Sort(s, le), le)
    ensures forall y :: y in Sort(s, le) ==> y in u
  {
    if s != [] {
      SortSortedWithin(s[1..], le, u);
      var t := Sort(s[1..], le);
      forall y | y in t ensures y in u {
        assert y in multiset(t);
      }
      InsertSorted(s[0], t, le, u);
      var r := Sort(s, le);
      forall y | y in r ensures y in u {
        assert y in multiset(r);
        assert y in multiset(s);
      }
    }
  }
}
