/**
 * Sums of a real-valued measure over a sequence, and the facts the scoring
 * code needs about them: sums split over concatenation, do not depend on
 * the order of the elements, and grow with the measure.
 */
module Sums {

  /** `f(a[0]) + ... + f(a[|a|-1])`, added left to right. */
  function SumBy<T>(a: seq<T>, f: T -> real): real
  {
    if a == [] then 0.0 else SumBy(a[..|a| - 1], f) + f(a[|a| - 1])
  }

  lemma {:induction false} SumByAppend<T>(a: seq<T>, b: seq<T>, f: T -> real)
    ensures SumBy(a + b, f) == SumBy(a, f) + SumBy(b, f)
    decreases |b|
  {
    if b == [] {
      assert a + b == a;
    } else {
      assert (a + b)[..|a + b| - 1] == a + b[..|b| - 1];
      SumByAppend(a, b[..|b| - 1], f);
    }
  }

  lemma {:induction false} SumBySingle<T>(x: T, f: T -> real)
    ensures SumBy([x], f) == f(x)
  {
    assert [x][..0] == [];
  }

  /** Taking one element out of the sum. */
  lemma {:induction false} SumByRemove<T>(a: seq<T>, j: nat, f: T -> real)
    requires j < |a|
    ensures SumBy(a, f) == SumBy(a[..j] + a[j + 1..], f) + f(a[j])
  {
    assert a == (a[..j] + [a[j]]) + a[j + 1..];
    SumByAppend(a[..j] + [a[j]], a[j + 1..], f);
    SumByAppend(a[..j], [a[j]], f);
    SumBySingle(a[j], f);
    SumByAppend(a[..j], a[j + 1..], f);
  }

  /** A sum does not depend on the order of its terms. */
  lemma {:induction false} SumByPermutation<T>(a: seq<T>, b: seq<T>, f: T -> real)
    requires multiset(a) == multiset(b)
    ensures SumBy(a, f) == SumBy(b, f)
    decreases |a|
  {
    if a == [] {
      assert |multiset(b)| == 0;
      assert b == [];
    } else {
      var x := a[|a| - 1];
      assert x in multiset(a);
      assert x in multiset(b);
      var j :| 0 <= j < |b| && b[j] == x;
      var rest := b[..j] + b[j + 1..];
      assert b == b[..j] + [x] + b[j + 1..];
      assert multiset(b) == multiset(rest) + multiset{x};
      assert a == a[..|a| - 1] + [x];
      assert multiset(a) == multiset(a[..|a| - 1]) + multiset{x};
      assert multiset(a[..|a| - 1]) == multiset(a) - multiset{x};
      assert multiset(rest) == multiset(b) - multiset{x};
      SumByPermutation(a[..|a| - 1], rest, f);
      SumByRemove(b, j, f);
    }
  }

  /** Termwise comparison carries over to the sums. */
  lemma {:induction false} SumByMonotone<T>(a: seq<T>, f: T -> real, g: T -> real)
    requires forall i :: 0 <= i < |a| ==> f(a[i]) <= g(a[i])
    ensures SumBy(a, f) <= SumBy(a, g)
    decreases |a|
  {
    if a != [] {
      SumByMonotone(a[..|a| - 1], f, g);
    }
  }

  /** A sum of non-negative terms is non-negative. */
  lemma {:induction false} SumByNonNegative<T>(a: seq<T>, f: T -> real)
    requires forall i :: 0 <= i < |a| ==> f(a[i]) >= 0.0
    ensures SumBy(a, f) >= 0.0
    decreases |a|
  {
    if a != [] {
      SumByNonNegative(a[..|a| - 1], f);
    }
  }

  /** A sum of a constant term is that constant times the length. */
  lemma {:induction false} SumByConstant<T>(a: seq<T>, f: T -> real, c: real)
    requires forall i :: 0 <= i < |a| ==> f(a[i]) == c
    ensures SumBy(a, f) == c * |a| as real
    decreases |a|
  {
    if a != [] {
      SumByConstant(a[..|a| - 1], f, c);
    }
  }
}
