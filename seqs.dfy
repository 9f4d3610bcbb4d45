/** Sequence facts shared by the classifier: distinctness, first-occurrence
    positions, removal of repeats and Python's slice `[:n]`. */
module Seqs {

  /** No element occurs twice. */
  ghost predicate NoDup<T>(s: seq<T>) {
    forall i, j :: 0 <= i < j < |s| ==> s[i] != s[j]
  }

  /** The position of the first occurrence of `x` in `s` (Python's `list.index`). */
  function IndexOf<T(==)>(s: seq<T>, x: T): (i: nat)
    requires x in s
    ensures i < |s| && s[i] == x
    ensures forall j :: 0 <= j < i ==> s[j] != x
  {
    if s[0] == x then 0 else 1 + IndexOf(s[1..], x)
  }

  /** Every element of `d` occurs in `s`, and `d` lists them in the order of
      their first occurrences in `s`. */
  ghost predicate InOrderOf<T>(d: seq<T>, s: seq<T>) {
    (forall x :: x in d ==> x in s) &&
    forall i, j :: 0 <= i < j < |d| ==> d[i] in s && d[j] in s && IndexOf(s, d[i]) < IndexOf(s, d[j])
  }

  /** The first `n` elements of `s`, or all of them when there are fewer
      (Python's `s[:n]`, JavaScript's `s.slice(0, n)`). */
  function Take<T>(s: seq<T>, n: nat): (r: seq<T>)
    ensures |r| == if |s| < n then |s| else n
    ensures r == s[..|r|]
  {
    if |s| <= n then s else s[..n]
  }

  /** `s` with every repeat of an earlier element removed.  It is the list a
      loop builds by appending each element that it does not hold yet. */
  function Dedup<T(==)>(s: seq<T>): (d: seq<T>)
  {
    if s == [] then []
    else
      var d := Dedup(s[..|s| - 1]);
      if s[|s| - 1] in d then d else d + [s[|s| - 1]]
  }

  lemma {:induction false} IndexOfSnocEarlier<T>(p: seq<T>, y: T, x: T)
    requires x in p
    ensures x in p + [y] && IndexOf(p + [y], x) == IndexOf(p, x)
  {
    if p[0] != x {
      assert (p + [y])[1..] == p[1..] + [y];
      IndexOfSnocEarlier(p[1..], y, x);
    }
  }

  lemma {:induction false} IndexOfSnocNew<T>(p: seq<T>, x: T)
    requires x !in p
    ensures x in p + [x] && IndexOf(p + [x], x) == |p|
  {
    if p != [] {
      assert (p + [x])[1..] == p[1..] + [x];
      IndexOfSnocNew(p[1..], x);
    }
  }

  /** `Dedup` keeps exactly the elements of `s`, once each, in the order of
      their first occurrences. */
  lemma {:induction false} DedupSpec<T>(s: seq<T>)
    ensures NoDup(Dedup(s))
    ensures forall x :: x in Dedup(s) <==> x in s
    ensures InOrderOf(Dedup(s), s)
  {
    if s != [] {
      var p, x := s[..|s| - 1], s[|s| - 1];
      assert s == p + [x];
      DedupSpec(p);
      var d := Dedup(p);
      forall y | y in d ensures y in s && IndexOf(s, y) == IndexOf(p, y) {
        IndexOfSnocEarlier(p, x, y);
      }
      if x !in d {
        IndexOfSnocNew(p, x);
        forall y | y in d ensures IndexOf(p, y) < |p| { }
      }
    }
  }

  /** A list without repeats has as many distinct elements as entries. */
  lemma {:induction false} NoDupCard<T>(s: seq<T>)
    requires NoDup(s)
    ensures |set x | x in s| == |s|
  {
    if s != [] {
      var p, x := s[..|s| - 1], s[|s| - 1];
      assert s == p + [x];
      NoDupCard(p);
      assert (set y | y in s) == (set y | y in p) + {x};
      assert x !in (set y | y in p);
    }
  }
}
