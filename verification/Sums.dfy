/** Finite sums over lists, in the order a loop would accumulate them. */
module Sums {
  function Sum<T>(s: seq<T>, f: T -> int): int {
    if s == [] then 0 else Sum(s[..|s| - 1], f) + f(s[|s| - 1])
  }

  lemma {:induction false} SumAppend<T>(s: seq<T>, t: seq<T>, f: T -> int)
    ensures Sum(s + t, f) == Sum(s, f) + Sum(t, f)
  {
    if t == [] {
      assert s + t == s;
    } else {
      var init := t[..|t| - 1];
      SumAppend(s, init, f);
      assert (s + t)[..|s + t| - 1] == s + init;
    }
  }

  lemma {:induction false} SumCongruent<T>(s: seq<T>, f: T -> int, g: T -> int)
    requires forall x :: x in s ==> f(x) == g(x)
    ensures Sum(s, f) == Sum(s, g)
  {
    if s != [] {
      assert forall x :: x in s[..|s| - 1] ==> x in s;
      SumCongruent(s[..|s| - 1], f, g);
    }
  }

  lemma {:induction false} SumAdditive<T>(s: seq<T>, h: T -> int, f: T -> int, g: T -> int)
    requires forall x :: x in s ==> h(x) == f(x) + g(x)
    ensures Sum(s, h) == Sum(s, f) + Sum(s, g)
  {
    if s != [] {
      assert forall x :: x in s[..|s| - 1] ==> x in s;
      SumAdditive(s[..|s| - 1], h, f, g);
    }
  }

  lemma {:induction false} SumBounded<T>(s: seq<T>, f: T -> int, bound: nat)
    requires forall x :: x in s ==> -(bound as int) <= f(x) <= bound
    ensures -(|s| * bound) as int <= Sum(s, f) <= |s| * bound
  {
    if s != [] {
      assert forall x :: x in s[..|s| - 1] ==> x in s;
      SumBounded(s[..|s| - 1], f, bound);
      assert |s| * bound == (|s| - 1) * bound + bound;
    }
  }

  lemma SumRemove<T>(s: seq<T>, k: nat, f: T -> int)
    requires k < |s|
    ensures Sum(s, f) == Sum(s[..k] + s[k + 1..], f) + f(s[k])
  {
    SumAppend(s[..k], s[k + 1..], f);
    SumAppend(s[..k + 1], s[k + 1..], f);
    assert s[..k + 1] + s[k + 1..] == s;
    assert s[..k + 1][..k] == s[..k];
  }

  lemma RemoveAt<T>(t: seq<T>, k: nat)
    requires k < |t|
    ensures multiset(t) == multiset(t[..k] + t[k + 1..]) + multiset{t[k]}
  {
    assert t == t[..k] + [t[k]] + t[k + 1..];
  }

  lemma CancelOne<T>(a: multiset<T>, b: multiset<T>, x: T)
    requires a + multiset{x} == b + multiset{x}
    ensures a == b
  {
    assert a == a + multiset{x} - multiset{x};
    assert b == b + multiset{x} - multiset{x};
  }

  /** A sum does not depend on the order in which a set or dict is iterated. */
  lemma {:induction false} SumPermutation<T>(s: seq<T>, t: seq<T>, f: T -> int)
    requires multiset(s) == multiset(t)
    ensures Sum(s, f) == Sum(t, f)
  {
    if s == [] {
      assert |multiset(t)| == 0;
    } else {
      var x := s[|s| - 1];
      RemoveAt(s, |s| - 1);
      assert s[..|s| - 1] + s[|s|..] == s[..|s| - 1];
      assert x in multiset(t);
      var k :| 0 <= k < |t| && t[k] == x;
      RemoveAt(t, k);
      CancelOne(multiset(s[..|s| - 1]), multiset(t[..k] + t[k + 1..]), x);
      SumPermutation(s[..|s| - 1], t[..k] + t[k + 1..], f);
      SumRemove(t, k, f);
    }
  }

  // ---- double sums over a matrix of pairwise terms ----

  function RowOf<T>(m: (T, T) -> int, i: T): T -> int {
    j => m(i, j)
  }

  function ColumnOf<T>(m: (T, T) -> int, j: T): T -> int {
    i => m(i, j)
  }

  function Row<T>(m: (T, T) -> int, i: T, t: seq<T>): int {
    Sum(t, RowOf(m, i))
  }

  function RowsOver<T>(m: (T, T) -> int, t: seq<T>): T -> int {
    i => Row(m, i, t)
  }

  function Double<T>(m: (T, T) -> int, s: seq<T>, t: seq<T>): int {
    Sum(s, RowsOver(m, t))
  }

  ghost predicate Antisymmetric<T(!new)>(m: (T, T) -> int) {
    forall i, j :: m(i, j) == -m(j, i)
  }

  lemma {:induction false} ColumnNegatesRow<T(!new)>(m: (T, T) -> int, j: T, s: seq<T>)
    requires Antisymmetric(m)
    ensures Sum(s, ColumnOf(m, j)) == -Row(m, j, s)
  {
    if s != [] {
      ColumnNegatesRow(m, j, s[..|s| - 1]);
    }
  }

  /** Summing an antisymmetric matrix over s × t is minus summing it over t × s. */
  lemma {:induction false} DoubleSwap<T(!new)>(m: (T, T) -> int, s: seq<T>, t: seq<T>)
    requires Antisymmetric(m)
    ensures Double(m, s, t) == -Double(m, t, s)
  {
    if s == [] {
      SumCongruent(t, RowsOver(m, []), j => 0);
      SumZero(t);
    } else {
      var init, a := s[..|s| - 1], s[|s| - 1];
      DoubleSwap(m, init, t);
      SumAdditive(t, RowsOver(m, s), RowsOver(m, init), ColumnOf(m, a));
      ColumnNegatesRow(m, a, t);
    }
  }

  lemma {:induction false} SumZero<T>(s: seq<T>)
    ensures Sum(s, j => 0) == 0
  {
    if s != [] {
      SumZero(s[..|s| - 1]);
      SumCongruent(s[..|s| - 1], j => 0, j => 0);
    }
  }

  lemma DoublePermutation<T(!new)>(m: (T, T) -> int, s: seq<T>, s': seq<T>, t: seq<T>)
    requires multiset(s) == multiset(s')
    ensures Double(m, s, t) == Double(m, s', t)
  {
    SumPermutation(s, s', RowsOver(m, t));
  }

  /** Rows over a list that splits into two parts split accordingly. */
  lemma DoubleSplitsColumns<T(!new)>(m: (T, T) -> int, s: seq<T>, t: seq<T>, t1: seq<T>, t2: seq<T>)
    requires multiset(t) == multiset(t1) + multiset(t2)
    ensures Double(m, s, t) == Double(m, s, t1) + Double(m, s, t2)
  {
    forall i | i in s ensures RowsOver(m, t)(i) == RowsOver(m, t1)(i) + RowsOver(m, t2)(i) {
      assert multiset(t1 + t2) == multiset(t1) + multiset(t2);
      SumPermutation(t, t1 + t2, RowOf(m, i));
      SumAppend(t1, t2, RowOf(m, i));
    }
    SumAdditive(s, RowsOver(m, t), RowsOver(m, t1), RowsOver(m, t2));
  }

  /** The terms inside one group cancel in pairs. */
  lemma DoubleCancels<T(!new)>(m: (T, T) -> int, s: seq<T>)
    requires Antisymmetric(m)
    ensures Double(m, s, s) == 0
  {
    DoubleSwap(m, s, s);
  }
}
