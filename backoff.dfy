/** Reconnect delays of the form `Math.min(base * Math.pow(2, attempts), cap)`. */
module Backoff {

  function Pow2(n: nat): (r: nat)
    ensures r >= 1
  {
    if n == 0 then 1 else 2 * Pow2(n - 1)
  }

  function Min(a: int, b: int): int {
    if a <= b then a else b
  }

  /** The delay before the next reconnect after `attempts` earlier timer firings. */
  function Delay(base: nat, cap: nat, attempts: nat): (d: nat)
    requires base <= cap
    ensures base <= d <= cap
  {
    Min(base * Pow2(attempts), cap)
  }

  lemma {:induction false} Pow2Monotone(m: nat, n: nat)
    requires m <= n
    ensures Pow2(m) <= Pow2(n)
  {
    if m < n {
      Pow2Monotone(m, n - 1);
    }
  }

  /** The delay never decreases as the attempt count grows. */
  lemma DelayMonotone(base: nat, cap: nat, m: nat, n: nat)
    requires base <= cap && m <= n
    ensures Delay(base, cap, m) <= Delay(base, cap, n)
  {
    Pow2Monotone(m, n);
    assert base * Pow2(m) <= base * Pow2(n) by {
      var d := Pow2(n) - Pow2(m);
      assert base * Pow2(n) == base * Pow2(m) + base * d;
    }
  }

  /** Once `base * 2^k` reaches the cap, every later delay is the cap. */
  lemma DelaySaturates(base: nat, cap: nat, k: nat, n: nat)
    requires base <= cap && k <= n && base * Pow2(k) >= cap
    ensures Delay(base, cap, n) == cap
  {
    DelayMonotone(base, cap, k, n);
  }
}
