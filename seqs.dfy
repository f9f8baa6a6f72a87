/** Sequence combinators used by every layer of the dashboard: JavaScript's
    `Array.prototype.filter` / `map` and Python's filtering comprehensions
    all keep the order of their input, and so do these. */
module Seqs {

  /** A value that may be absent (a JSON member that may be missing). */
  datatype Option<+T> = None | Some(value: T)

  /** The elements of `s` that satisfy `p`, in their original order. */
  function Filter<T>(s: seq<T>, p: T -> bool): (r: seq<T>)
    ensures |r| <= |s|
    ensures forall x :: x in r ==> x in s && p(x)
  {
    if s == [] then [] else (if p(s[0]) then [s[0]] else []) + Filter(s[1..], p)
  }

  /** `f` applied to every element of `s`, index by index. */
  function Map<T, U>(f: T -> U, s: seq<T>): (r: seq<U>)
    ensures |r| == |s|
    ensures forall i :: 0 <= i < |s| ==> r[i] == f(s[i])
  {
    if s == [] then [] else [f(s[0])] + Map(f, s[1..])
  }

  /** The concatenation of `f` of every element of `xs`, in order. */
  function FlatMap<T, U>(f: T -> seq<U>, xs: seq<T>): seq<U> {
    if xs == [] then [] else f(xs[0]) + FlatMap(f, xs[1..])
  }

  /** Appending an element appends its image. */
  lemma {:induction false} FlatMapSnoc<T, U>(f: T -> seq<U>, xs: seq<T>, x: T)
    ensures FlatMap(f, xs + [x]) == FlatMap(f, xs) + f(x)
  {
    if xs == [] {
      assert [] + [x] == [x];
    } else {
      assert (xs + [x])[1..] == xs[1..] + [x];
      FlatMapSnoc(f, xs[1..], x);
    }
  }

  /** Nothing that satisfies `p` is dropped. */
  lemma {:induction false} FilterKeeps<T>(s: seq<T>, p: T -> bool, x: T)
    requires x in s && p(x)
    ensures x in Filter(s, p)
  {
    if s[0] != x {
      FilterKeeps(s[1..], p, x);
    }
  }

  /** Filtering is empty exactly when no element qualifies. */
  lemma FilterEmpty<T>(s: seq<T>, p: T -> bool)
    ensures Filter(s, p) == [] <==> forall x :: x in s ==> !p(x)
  {
  }

  /** Filtering distributes over concatenation: the relative order of the kept
      elements is the order of the input. */
  lemma {:induction false} FilterConcat<T>(a: seq<T>, b: seq<T>, p: T -> bool)
    ensures Filter(a + b, p) == Filter(a, p) + Filter(b, p)
  {
    if a == [] {
      assert a + b == b;
    } else {
      assert (a + b)[0] == a[0];
      assert (a + b)[1..] == a[1..] + b;
      FilterConcat(a[1..], b, p);
    }
  }

  /** Filtering twice is filtering once by both tests: the second filter
      keeps the order the first one kept. */
  lemma {:induction false} FilterFilter<T>(s: seq<T>, p: T -> bool, q: T -> bool, both: T -> bool)
    requires forall x :: both(x) == (p(x) && q(x))
    ensures Filter(Filter(s, p), q) == Filter(s, both)
  {
    if s != [] {
      var rest := Filter(s[1..], p);
      FilterFilter(s[1..], p, q, both);
      if p(s[0]) {
        calc {
          Filter(Filter(s, p), q);
          { assert Filter(s, p) == [s[0]] + rest; }
          Filter([s[0]] + rest, q);
          { FilterConcat([s[0]], rest, q); }
          Filter([s[0]], q) + Filter(rest, q);
        }
      } else {
        assert Filter(s, p) == rest;
      }
    }
  }

  /** Filtering by `p` and by its negation splits `s` into two parts that
      together hold every element exactly as often as `s` does. */
  lemma {:induction false} FilterPartition<T>(s: seq<T>, p: T -> bool, q: T -> bool)
    requires forall x :: q(x) == !p(x)
    ensures multiset(Filter(s, p)) + multiset(Filter(s, q)) == multiset(s)
    ensures |Filter(s, p)| + |Filter(s, q)| == |s|
  {
    if s != [] {
      FilterPartition(s[1..], p, q);
      assert s == [s[0]] + s[1..];
    }
  }

  /** No element occurs twice: the head is not repeated in the tail, and
      neither is any later element. */
  predicate Distinct<T(==)>(s: seq<T>) {
    s == [] || (s[0] !in s[1..] && Distinct(s[1..]))
  }

  /** The recursive definition says what it should: no two positions hold
      the same element. */
  lemma {:induction false} DistinctPositions<T>(s: seq<T>)
    ensures Distinct(s) <==> forall i, j :: 0 <= i < j < |s| ==> s[i] != s[j]
  {
    if s != [] {
      DistinctPositions(s[1..]);
      if Distinct(s) {
        forall i, j | 0 <= i < j < |s| ensures s[i] != s[j] {
          assert s[j] == s[1..][j - 1];
          if i > 0 { assert s[i] == s[1..][i - 1]; }
        }
      } else if s[0] in s[1..] {
        var k :| 0 <= k < |s| - 1 && s[1..][k] == s[0];
        assert s[k + 1] == s[0];
      } else {
        var i, j :| 0 <= i < j < |s| - 1 && s[1..][i] == s[1..][j];
        assert s[i + 1] == s[j + 1];
      }
    }
  }

  /** The position of the first occurrence of `x` in `s`. */
  function IndexOf<T(==)>(s: seq<T>, x: T): (i: nat)
    requires x in s
    ensures i < |s| && s[i] == x
  {
    if s[0] == x then 0 else 1 + IndexOf(s[1..], x)
  }

  /** In a sequence without repetitions, `Filter` keeps the elements in the
      order of their positions in the input. */
  lemma {:induction false} FilterKeepsOrder<T>(s: seq<T>, p: T -> bool, i: nat, j: nat)
    requires Distinct(s)
    requires i < j < |Filter(s, p)|
    ensures IndexOf(s, Filter(s, p)[i]) < IndexOf(s, Filter(s, p)[j])
    decreases |s|, 1
  {
    if p(s[0]) {
      KeptHeadOrder(s, p, i, j);
    } else {
      DroppedHeadOrder(s, p, i, j);
    }
  }

  /** The order step when the head is kept: it comes first. */
  lemma {:induction false} KeptHeadOrder<T>(s: seq<T>, p: T -> bool, i: nat, j: nat)
    requires Distinct(s) && s != [] && p(s[0])
    requires i < j < |Filter(s, p)|
    ensures IndexOf(s, Filter(s, p)[i]) < IndexOf(s, Filter(s, p)[j])
    decreases |s|, 0
  {
    var f, rest := Filter(s, p), Filter(s[1..], p);
    assert f[j] == rest[j - 1];
    FilterTailElement(s, p, rest, j - 1);
    if i > 0 {
      assert f[i] == rest[i - 1];
      FilterTailElement(s, p, rest, i - 1);
      FilterKeepsOrder(s[1..], p, i - 1, j - 1);
    }
  }

  /** The order step when the head is dropped. */
  lemma {:induction false} DroppedHeadOrder<T>(s: seq<T>, p: T -> bool, i: nat, j: nat)
    requires Distinct(s) && s != [] && !p(s[0])
    requires i < j < |Filter(s, p)|
    ensures IndexOf(s, Filter(s, p)[i]) < IndexOf(s, Filter(s, p)[j])
    decreases |s|, 0
  {
    var f, rest := Filter(s, p), Filter(s[1..], p);
    assert f[i] == rest[i] && f[j] == rest[j];
    FilterTailElement(s, p, rest, i);
    FilterTailElement(s, p, rest, j);
    FilterKeepsOrder(s[1..], p, i, j);
  }

  /** An element kept from the tail sits one position further in `s`. */
  lemma FilterTailElement<T>(s: seq<T>, p: T -> bool, rest: seq<T>, k: nat)
    requires Distinct(s) && s != [] && rest == Filter(s[1..], p) && k < |rest|
    ensures rest[k] in s[1..] && IndexOf(s, rest[k]) == 1 + IndexOf(s[1..], rest[k])
  {
  }
}
