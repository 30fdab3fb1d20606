/** Sequence utilities shared by the modules: search, de-duplication, removal of a value. */
module Sequences {

  /** `xs.some(p)`. */
  function AnyOf<T>(xs: seq<T>, p: T -> bool): (r: bool)
    ensures r <==> exists j :: 0 <= j < |xs| && p(xs[j])
  {
    if xs == [] then false else p(xs[0]) || AnyOf(xs[1..], p)
  }

  predicate NoDup<T(==)>(xs: seq<T>)
  {
    forall i, j :: 0 <= i < j < |xs| ==> xs[i] != xs[j]
  }

  /** `xs.indexOf(x)` for an `x` that occurs. */
  function FirstIndex<T(==)>(xs: seq<T>, x: T): (r: nat)
    requires x in xs
    ensures r < |xs| && xs[r] == x
    ensures forall i :: 0 <= i < r ==> xs[i] != x
  {
    if xs[0] == x then 0 else 1 + FirstIndex(xs[1..], x)
  }

  /** The first occurrence of `x` does not move when more elements follow. */
  lemma {:induction false} FirstIndexInPrefix<T>(xs: seq<T>, n: nat, x: T)
    requires n <= |xs| && x in xs[..n]
    ensures FirstIndex(xs, x) == FirstIndex(xs[..n], x)
    decreases n
  {
    assert xs[..n][0] == xs[0];
    if xs[0] != x {
      var k :| 0 <= k < n && xs[..n][k] == x;
      var rest := xs[1..];
      assert rest[..n - 1] == xs[..n][1..];
      assert rest[..n - 1][k - 1] == x;
      FirstIndexInPrefix(rest, n - 1, x);
    }
  }

  /**
   * `[...new Set(xs)]`: each element once, in the order a `Set` receives them,
   * that is, the order of first occurrence.
   */
  function Dedup<T(==)>(xs: seq<T>): (r: seq<T>)
    ensures NoDup(r)
    ensures forall i :: 0 <= i < |r| ==> r[i] in xs
    ensures forall i :: 0 <= i < |xs| ==> xs[i] in r
    ensures |r| <= |xs|
  {
    if xs == [] then []
    else
      var d := Dedup(xs[..|xs| - 1]);
      if xs[|xs| - 1] in d then d else d + [xs[|xs| - 1]]
  }

  /** `r` lists elements of `xs` by increasing first occurrence in `xs`. */
  predicate ByFirstOccurrence<T(==)>(xs: seq<T>, r: seq<T>)
    requires forall i :: 0 <= i < |r| ==> r[i] in xs
  {
    forall i, j :: 0 <= i < j < |r| ==> FirstIndex(xs, r[i]) < FirstIndex(xs, r[j])
  }

  /** Appending after the last element keeps the first occurrences of what came before. */
  lemma ByFirstOccurrenceExtend<T>(p: seq<T>, y: T, d: seq<T>)
    requires forall i :: 0 <= i < |d| ==> d[i] in p
    requires ByFirstOccurrence(p, d)
    ensures forall i :: 0 <= i < |d| ==> d[i] in p + [y]
    ensures ByFirstOccurrence(p + [y], d)
  {
    forall i | 0 <= i < |d|
      ensures FirstIndex(p + [y], d[i]) == FirstIndex(p, d[i])
    {
      assert (p + [y])[..|p|] == p;
      FirstIndexInPrefix(p + [y], |p|, d[i]);
    }
  }

  /** Dedup lists the distinct elements by increasing first occurrence. */
  lemma {:induction false} DedupKeepsFirstOccurrenceOrder<T>(xs: seq<T>)
    ensures ByFirstOccurrence(xs, Dedup(xs))
  {
    if xs != [] {
      var p := xs[..|xs| - 1];
      var y := xs[|xs| - 1];
      var d := Dedup(p);
      assert xs == p + [y];
      DedupKeepsFirstOccurrenceOrder(p);
      ByFirstOccurrenceExtend(p, y, d);
      if y !in d {
        assert y !in p;
        assert FirstIndex(xs, y) == |p|;
        assert Dedup(xs) == d + [y];
      }
    }
  }

  /** A list that has no duplicates is its own de-duplication. */
  lemma {:induction false} DedupOfNoDup<T>(xs: seq<T>)
    requires NoDup(xs)
    ensures Dedup(xs) == xs
  {
    if xs != [] {
      var p := xs[..|xs| - 1];
      assert NoDup(p);
      DedupOfNoDup(p);
      assert xs[|xs| - 1] !in p;
      assert p + [xs[|xs| - 1]] == xs;
    }
  }

  /** `xs.filter(y => y !== x)`. */
  function Without<T(==)>(xs: seq<T>, x: T): (r: seq<T>)
    ensures x !in r
    ensures forall i :: 0 <= i < |r| ==> r[i] in xs
    ensures forall i :: 0 <= i < |xs| && xs[i] != x ==> xs[i] in r
    ensures |r| <= |xs|
    ensures x !in xs ==> r == xs
  {
    if xs == [] then []
    else if xs[0] == x then Without(xs[1..], x)
    else [xs[0]] + Without(xs[1..], x)
  }

  /** Removal keeps the relative order of what remains. */
  lemma {:induction false} WithoutConcat<T>(a: seq<T>, b: seq<T>, x: T)
    ensures Without(a + b, x) == Without(a, x) + Without(b, x)
  {
    if a == [] {
      assert a + b == b;
    } else {
      assert (a + b)[1..] == a[1..] + b;
      WithoutConcat(a[1..], b, x);
    }
  }

  /** Removal keeps a list free of duplicates. */
  lemma {:induction false} WithoutKeepsNoDup<T>(xs: seq<T>, x: T)
    requires NoDup(xs)
    ensures NoDup(Without(xs, x))
  {
    if xs != [] {
      assert NoDup(xs[1..]);
      WithoutKeepsNoDup(xs[1..], x);
      assert xs[0] !in xs[1..];
    }
  }

  /** Appending an absent element keeps a list free of duplicates. */
  lemma AppendKeepsNoDup<T>(xs: seq<T>, x: T)
    requires NoDup(xs) && x !in xs
    ensures NoDup(xs + [x])
  {
    var ys := xs + [x];
    forall i, j | 0 <= i < j < |ys|
      ensures ys[i] != ys[j]
    {
      if j == |xs| {
        assert ys[i] == xs[i];
      }
    }
  }
}
