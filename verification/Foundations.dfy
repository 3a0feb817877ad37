/** Shared vocabulary: results, organization identifiers and their order, enumerations of sets. */
module Foundations {

  datatype Option<+T> = None | Some(value: T)

  datatype Result<+T, +E> = Ok(value: T) | Err(error: E)

  /** The exception classes of sentrylink/errors.py (and the builtins) that the modelled code raises. */
  datatype Error =
    | ProtocolError
    | InvalidDataError
    | ModelDimensionMismatchError
    | DuplicateRosterError
    | NotInRoster
    | ValueError
    | KeyError
    | AssertionFailed
    | PrivacyBudgetError
    | ConcurrentWriteError
    | GovernanceDenied

  type OrgId = string

  type Byte = b: int | 0 <= b < 256

  type Bytes = seq<Byte>

  /** Python's `<` on str: the first differing character decides, a proper prefix is smaller. */
  predicate StrLess(a: string, b: string) {
    b != [] && (a == [] || a[0] < b[0] || (a[0] == b[0] && StrLess(a[1..], b[1..])))
  }

  lemma {:induction false} StrLessTotal(a: string, b: string)
    ensures a == b ==> !StrLess(a, b)
    ensures a != b ==> StrLess(a, b) == !StrLess(b, a)
  {
    if a != [] && b != [] {
      StrLessTotal(a[1..], b[1..]);
      assert a == [a[0]] + a[1..] && b == [b[0]] + b[1..];
    }
  }

  lemma {:induction false} StrLessTransitive(a: string, b: string, c: string)
    requires StrLess(a, b) && StrLess(b, c)
    ensures StrLess(a, c)
  {
    if a != [] && a[0] == b[0] && b[0] == c[0] {
      StrLessTransitive(a[1..], b[1..], c[1..]);
    }
  }

  /** The order is lexicographic: it is decided where the strings first differ, or where one of them ends. */
  lemma {:induction false} StrLessAtFirstDifference(a: string, b: string, k: nat)
    requires k <= |a| && k <= |b| && a[..k] == b[..k] && (k == |a| || k == |b| || a[k] != b[k])
    ensures StrLess(a, b) <==> k < |b| && (k == |a| || a[k] < b[k])
  {
    if k > 0 {
      assert a[..k][0] == b[..k][0];
      assert a[1..][..k - 1] == a[..k][1..] && b[1..][..k - 1] == b[..k][1..];
      StrLessAtFirstDifference(a[1..], b[1..], k - 1);
    }
  }

  ghost function Elements<T>(s: seq<T>): set<T> {
    set x | x in s
  }

  /** The duplicate check of the code: len(set(s)) == len(s). */
  ghost predicate NoDuplicates<T>(s: seq<T>) {
    |Elements(s)| == |s|
  }

  predicate Distinct<T(==)>(s: seq<T>): (b: bool)
    ensures b == NoDuplicates(s)
  {
    assert Elements(s) == set x | x in s;
    |(set x | x in s)| == |s|
  }

  lemma {:induction false} ElementsAtMostLength<T>(s: seq<T>)
    ensures |Elements(s)| <= |s|
  {
    if s == [] {
      assert Elements(s) == {};
    } else {
      ElementsAtMostLength(s[..|s| - 1]);
      ElementsOfLast(s);
    }
  }

  lemma ElementsOfLast<T>(s: seq<T>)
    requires s != []
    ensures Elements(s) == Elements(s[..|s| - 1]) + {s[|s| - 1]}
  {
    assert s == s[..|s| - 1] + [s[|s| - 1]];
  }

  /** Without duplicates the last entry is new, and the rest has no duplicates either. */
  lemma DistinctLast<T>(s: seq<T>)
    requires s != []
    ensures NoDuplicates(s) <==> NoDuplicates(s[..|s| - 1]) && s[|s| - 1] !in s[..|s| - 1]
  {
    var init, last := s[..|s| - 1], s[|s| - 1];
    ElementsOfLast(s);
    ElementsAtMostLength(init);
    assert last in init <==> last in Elements(init);
    if last in Elements(init) {
      assert Elements(init) + {last} == Elements(init);
    }
  }

  lemma {:induction false} DistinctIndices<T>(s: seq<T>)
    ensures NoDuplicates(s) <==> forall i, j :: 0 <= i < j < |s| ==> s[i] != s[j]
  {
    if s == [] {
      assert Elements(s) == {};
    } else {
      var init := s[..|s| - 1];
      DistinctLast(s);
      DistinctIndices(init);
      assert forall i :: 0 <= i < |init| ==> init[i] == s[i] && init[i] in init;
    }
  }

  /** Some member of a non-empty set: one step of an iteration whose order is not specified. */
  method Pick<T>(s: set<T>) returns (x: T)
    requires s != {}
    ensures x in s
  {
    x :| x in s;
  }

  lemma Outside<T>(b: set<T>, a: set<T>) returns (x: T)
    requires !(b <= a)
    ensures x in b && x !in a
  {
    x :| x in b && x !in a;
  }

  /** `order` lists every member of `s` exactly once: one possible iteration order of a set or dict. */
  ghost predicate Enumerates<T>(order: seq<T>, s: set<T>) {
    multiset(order) == multiset(s)
  }

  lemma {:induction false} DistinctListEnumerates<T>(s: seq<T>)
    requires NoDuplicates(s)
    ensures Enumerates(s, Elements(s))
  {
    if s == [] {
      assert Elements(s) == {};
    } else {
      var init, last := s[..|s| - 1], s[|s| - 1];
      DistinctLast(s);
      DistinctListEnumerates(init);
      assert s == init + [last];
      ElementsOfLast(s);
    }
  }

  lemma EnumerationMembers<T(!new)>(order: seq<T>, s: set<T>)
    requires Enumerates(order, s)
    ensures forall x :: x in order <==> x in s
  {
    forall x ensures x in order <==> x in s {
      assert x in order <==> x in multiset(order);
      assert x in s <==> x in multiset(s);
    }
  }

  lemma EnumerationExtends<T>(order: seq<T>, s: set<T>, x: T)
    requires Enumerates(order, s) && x !in s
    ensures Enumerates(order + [x], s + {x})
  {
    assert multiset(s + {x}) == multiset(s) + multiset{x};
  }

  /** The members of `s` that satisfy membership in `keep`, in list order. */
  function Restrict<T(==, !new)>(s: seq<T>, keep: set<T>): (r: seq<T>)
    ensures forall x :: x in r <==> x in s && x in keep
  {
    if s == [] then []
    else
      var rest := Restrict(s[..|s| - 1], keep);
      if s[|s| - 1] in keep then rest + [s[|s| - 1]] else rest
  }

  lemma {:induction false} RestrictNone<T(!new)>(s: seq<T>, keep: set<T>)
    requires forall x :: x in s ==> x !in keep
    ensures Restrict(s, keep) == []
  {
    if s != [] {
      RestrictNone(s[..|s| - 1], keep);
    }
  }

  lemma {:induction false} RestrictSplits<T(!new)>(s: seq<T>, keep: set<T>, drop: set<T>)
    requires keep !! drop && Elements(s) <= keep + drop
    ensures multiset(s) == multiset(Restrict(s, keep)) + multiset(Restrict(s, drop))
  {
    if s != [] {
      var init := s[..|s| - 1];
      assert s == init + [s[|s| - 1]];
      assert Elements(init) <= Elements(s);
      RestrictSplits(init, keep, drop);
      assert s[|s| - 1] in Elements(s);
    }
  }

  lemma {:induction false} RestrictDistinct<T(!new)>(s: seq<T>, keep: set<T>)
    requires NoDuplicates(s)
    ensures NoDuplicates(Restrict(s, keep))
  {
    if s != [] {
      DistinctLast(s);
      RestrictDistinct(s[..|s| - 1], keep);
      var r := Restrict(s, keep);
      if s[|s| - 1] in keep {
        assert r[..|r| - 1] == Restrict(s[..|s| - 1], keep);
        DistinctLast(r);
      }
    }
  }
}
