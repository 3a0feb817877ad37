/** Two's-complement int64 arithmetic as numpy performs it: every result is reduced into the word. */
module Int64 {
  import opened Sums

  const WORD: int := 0x1_0000_0000_0000_0000
  const HALF: int := 0x8000_0000_0000_0000

  predicate Fits(x: int) { -HALF <= x < HALF }

  function Wrap(x: int): (w: int)
    ensures Fits(w)
    ensures Fits(x) ==> w == x
  {
    (x + HALF) % WORD - HALF
  }

  lemma WrapPeriodic(x: int, k: int)
    ensures Wrap(x + k * WORD) == Wrap(x)
  {
    var q, q' := (x + HALF) / WORD, (x + k * WORD + HALF) / WORD;
    assert x + k * WORD + HALF == WORD * q' + (x + k * WORD + HALF) % WORD;
    assert x + HALF == WORD * q + (x + HALF) % WORD;
    assert -WORD < WORD * (q' - q - k) < WORD;
  }

  lemma WrapQuotient(x: int) returns (k: int)
    ensures Wrap(x) == x + k * WORD
  {
    k := -((x + HALF) / WORD);
  }

  lemma WrapAdd(a: int, b: int)
    ensures Wrap(Wrap(a) + b) == Wrap(a + b)
    ensures Wrap(b - Wrap(a)) == Wrap(b - a)
  {
    var k := WrapQuotient(a);
    WrapPeriodic(a + b, k);
    WrapPeriodic(b - a, -k);
  }

  lemma WrapDifference(a: int, b: int)
    ensures Wrap(Wrap(a) - Wrap(b)) == Wrap(a - b)
  {
    WrapAdd(a, -Wrap(b));
    WrapAdd(b, a);
  }

  /** Wrapping every summand first does not change a wrapped total. */
  lemma {:induction false} WrapSum<T>(s: seq<T>, f: T -> int, g: T -> int)
    requires forall x :: x in s ==> f(x) == Wrap(g(x))
    ensures Wrap(Sum(s, f)) == Wrap(Sum(s, g))
  {
    if s != [] {
      var init, x := s[..|s| - 1], s[|s| - 1];
      assert forall y :: y in init ==> y in s;
      WrapSum(init, f, g);
      WrapAdd(Sum(init, f), f(x));
      WrapAdd(Sum(init, g), f(x));
      WrapAdd(g(x), Sum(init, g));
    }
  }
}
