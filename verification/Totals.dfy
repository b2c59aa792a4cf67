/** The sum of the values of a finite map. */
module Totals {

  ghost function Total<K>(m: map<K, nat>): nat
    decreases |m|
  {
    if m == map[] then 0
    else
      var k :| k in m;
      m[k] + Total(m - {k})
  }

  /** The order in which the keys are taken does not matter. */
  lemma {:induction false} TotalRemove<K>(m: map<K, nat>, k: K)
    requires k in m
    ensures Total(m) == m[k] + Total(m - {k})
    decreases |m|
  {
    var j :| j in m && Total(m) == m[j] + Total(m - {j});
    if j != k {
      TotalRemove(m - {j}, k);
      TotalRemove(m - {k}, j);
      assert m - {j} - {k} == m - {k} - {j};
    }
  }

  lemma TotalUpdate<K>(m: map<K, nat>, k: K, v: nat)
    requires k in m
    ensures Total(m[k := v]) == Total(m) - m[k] + v
  {
    TotalRemove(m, k);
    TotalRemove(m[k := v], k);
    assert m[k := v] - {k} == m - {k};
  }

  function Get<K>(m: map<K, nat>, k: K): nat {
    if k in m then m[k] else 0
  }

  lemma TotalDrop<K>(m: map<K, nat>, k: K)
    ensures Total(m) == Get(m, k) + Total(m - {k})
  {
    if k in m { TotalRemove(m, k); } else { assert m - {k} == m; }
  }

  lemma {:induction false} TotalZeroExactly<K(!new)>(m: map<K, nat>)
    ensures Total(m) == 0 <==> forall k | k in m :: m[k] == 0
    decreases |m|
  {
    if m != map[] {
      var k :| k in m;
      TotalRemove(m, k);
      TotalZeroExactly(m - {k});
      assert forall j | j in m :: j == k || j in m - {k};
    }
  }

  /** m adds a and b, key by key. */
  ghost predicate AddsUp<K(!new)>(m: map<K, nat>, a: map<K, nat>, b: map<K, nat>) {
    && m.Keys == a.Keys + b.Keys
    && forall k :: Get(m, k) == Get(a, k) + Get(b, k)
  }

  lemma {:induction false} TotalSum<K(!new)>(m: map<K, nat>, a: map<K, nat>, b: map<K, nat>)
    requires AddsUp(m, a, b)
    ensures Total(m) == Total(a) + Total(b)
    decreases |m|
  {
    if m != map[] {
      var k :| k in m;
      AddsUpDrop(m, a, b, k);
      TotalDrop(m, k);
      TotalDrop(a, k);
      TotalDrop(b, k);
      TotalSum(m - {k}, a - {k}, b - {k});
    } else {
      assert a.Keys == {} && b.Keys == {};
      assert a == map[] && b == map[];
    }
  }

  lemma AddsUpDrop<K(!new)>(m: map<K, nat>, a: map<K, nat>, b: map<K, nat>, k: K)
    requires AddsUp(m, a, b)
    ensures AddsUp(m - {k}, a - {k}, b - {k})
  {
    forall j ensures Get(m - {k}, j) == Get(a - {k}, j) + Get(b - {k}, j) {
      assert Get(m, j) == Get(a, j) + Get(b, j);
    }
  }
}
