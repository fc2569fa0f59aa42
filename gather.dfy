/** A list built by a loop over a sequence that pushes at most one value per
    element, the way the scripts' and the scorer's `forEach` loops call
    `push` only when a lookup succeeds. */
module Gather {
  import opened Wrappers

  /** `f` can be applied to each of the first `n` elements of `xs`. */
  ghost predicate Applicable<T, U>(xs: seq<T>, f: T --> Option<U>, n: nat)
    requires n <= |xs|
  {
    forall i :: 0 <= i < n ==> f.requires(xs[i])
  }

  /** The values pushed for the first `n` elements of `xs`, in order; `f(x)`
      is the value `x` pushes, if any. */
  function Kept<T, U>(xs: seq<T>, f: T --> Option<U>, n: nat): seq<U>
    requires n <= |xs| && Applicable(xs, f, n)
  {
    if n == 0 then []
    else
      var prior := Kept(xs, f, n - 1);
      var y := f(xs[n - 1]);
      if y.Some? then prior + [y.value] else prior
  }

  /** At most one value per element. */
  lemma {:induction false} KeptBounded<T, U>(xs: seq<T>, f: T --> Option<U>, n: nat)
    requires n <= |xs| && Applicable(xs, f, n)
    ensures |Kept(xs, f, n)| <= n
  {
    if n > 0 {
      KeptBounded(xs, f, n - 1);
    }
  }

  /** A value is pushed exactly when one of the first `n` elements pushes it. */
  lemma {:induction false} KeptMembership<T, U>(xs: seq<T>, f: T --> Option<U>, n: nat, u: U)
    requires n <= |xs| && Applicable(xs, f, n)
    ensures u in Kept(xs, f, n) <==> exists i :: 0 <= i < n && f(xs[i]) == Some(u)
  {
    if n > 0 {
      KeptMembership(xs, f, n - 1, u);
      if f(xs[n - 1]) == Some(u) {
        assert u in Kept(xs, f, n);
      } else if exists i :: 0 <= i < n && f(xs[i]) == Some(u) {
        var i :| 0 <= i < n && f(xs[i]) == Some(u);
        assert i < n - 1;
      }
    }
  }

  /** When no element pushes anything, the list stays empty. */
  lemma {:induction false} KeptNothing<T, U>(xs: seq<T>, f: T --> Option<U>, n: nat)
    requires n <= |xs| && Applicable(xs, f, n)
    requires forall i :: 0 <= i < n ==> f(xs[i]).None?
    ensures Kept(xs, f, n) == []
  {
    if n > 0 {
      KeptNothing(xs, f, n - 1);
    }
  }
}
