/** Counting in sequences. */
module Sequences {

  /** How often x occurs in s. */
  function Times<T(==)>(x: T, s: seq<T>): nat {
    if s == [] then 0 else Times(x, s[..|s| - 1]) + (if s[|s| - 1] == x then 1 else 0)
  }

  lemma {:induction false} TimesAppend<T>(x: T, a: seq<T>, b: seq<T>)
    ensures Times(x, a + b) == Times(x, a) + Times(x, b)
  {
    if b == [] {
      assert a + b == a;
    } else {
      var n := |b| - 1;
      assert (a + b)[..|a + b| - 1] == a + b[..n];
      TimesAppend(x, a, b[..n]);
    }
  }
}
