/** Facts about real products and quotients that several averages rely on. */
module Arith {

  /** n·x as a named product, so that the solver treats it as one term. */
  function Times(n: real, x: real): real
  {
    n * x
  }

  /** Dividing by a positive count keeps an upper bound: x <= n·hi gives x/n <= hi. */
  lemma DivideAtMost(x: real, n: real, hi: real)
    requires n > 0.0 && x <= Times(n, hi)
    ensures x / n <= hi
  {
  }

  /** Dividing by a positive count keeps a lower bound: n·lo <= x gives lo <= x/n. */
  lemma DivideAtLeast(x: real, n: real, lo: real)
    requires n > 0.0 && Times(n, lo) <= x
    ensures lo <= x / n
  {
  }

  /** Adding one more term to n·x gives (n+1)·x. */
  lemma TimesSucc(n: nat, x: real)
    ensures Times((n + 1) as real, x) == Times(n as real, x) + x
  {
  }
}
