/** A symbol-keyed cache updated by a loop over a batch of elements, each of
    which may assign one entry, the way the adapters' `forEach` loops assign
    `this.data[key] = value`. */
module Cache {
  import opened Wrappers

  /** A read of a cache whose key may be undefined: nothing when the key is undefined or absent. */
  function Lookup<K(==), V>(m: map<K, V>, key: Option<K>): (r: Option<V>)
    ensures r.Some? <==> key.Some? && key.value in m
    ensures r.Some? ==> r.value == m[key.value]
  {
    if key.Some? && key.value in m then Some(m[key.value]) else None
  }

  /** Whether element `x` assigns key `k`. */
  predicate WritesKey<T, K(==), V>(f: T -> Option<(K, V)>, x: T, k: K) {
    f(x).Some? && f(x).value.0 == k
  }

  /** The map once the first `n` elements of `xs` have made their writes, in
      order; `f(x)` is the key and value `x` assigns, if any. */
  function Run<T, K(==), V>(m: map<K, V>, xs: seq<T>, f: T -> Option<(K, V)>, n: nat): map<K, V>
    requires n <= |xs|
  {
    if n == 0 then m
    else
      var prior := Run(m, xs, f, n - 1);
      var w := f(xs[n - 1]);
      if w.Some? then prior[w.value.0 := w.value.1] else prior
  }

  /** A key that none of the first `n` elements assigns keeps its entry, or stays absent. */
  lemma {:induction false} RunUntouched<T, K, V>(m: map<K, V>, xs: seq<T>, f: T -> Option<(K, V)>, n: nat, k: K)
    requires n <= |xs|
    requires forall j :: 0 <= j < n ==> !WritesKey(f, xs[j], k)
    ensures k in Run(m, xs, f, n) <==> k in m
    ensures k in m ==> Run(m, xs, f, n)[k] == m[k]
  {
    if n > 0 {
      RunUntouched(m, xs, f, n - 1, k);
    }
  }

  /** The last of the first `n` elements that assigns a key decides its value. */
  lemma {:induction false} RunLast<T, K, V>(m: map<K, V>, xs: seq<T>, f: T -> Option<(K, V)>, n: nat, i: nat)
    requires i < n <= |xs| && f(xs[i]).Some?
    requires forall j :: i < j < n ==> !WritesKey(f, xs[j], f(xs[i]).value.0)
    ensures f(xs[i]).value.0 in Run(m, xs, f, n)
    ensures Run(m, xs, f, n)[f(xs[i]).value.0] == f(xs[i]).value.1
  {
    if i < n - 1 {
      RunLast(m, xs, f, n - 1, i);
    }
  }

  /** No entry is ever removed, every assigned key is present, and every new key was assigned. */
  lemma {:induction false} RunKeys<T, K, V>(m: map<K, V>, xs: seq<T>, f: T -> Option<(K, V)>, n: nat)
    requires n <= |xs|
    ensures m.Keys <= Run(m, xs, f, n).Keys
    ensures forall j :: 0 <= j < n && f(xs[j]).Some? ==> f(xs[j]).value.0 in Run(m, xs, f, n)
    ensures forall k :: k in Run(m, xs, f, n) && k !in m ==> exists j :: 0 <= j < n && WritesKey(f, xs[j], k)
  {
    if n > 0 {
      RunKeys(m, xs, f, n - 1);
    }
  }
}
