/**
 * A Prometheus counter (or a histogram's observation count) per label tuple:
 * a label tuple that was never touched reads as 0, and every update adds 1.
 */
module Counters {

  function Count<K>(m: map<K, nat>, k: K): nat
  {
    if k in m then m[k] else 0
  }

  /** `.labels(...).inc()` (or `.observe(...)` for a histogram's count). */
  function Inc<K(!new)>(m: map<K, nat>, k: K): (r: map<K, nat>)
    ensures Count(r, k) == Count(m, k) + 1
    ensures forall j :: j != k ==> Count(r, j) == Count(m, j)
    ensures r.Keys == m.Keys + {k}
  {
    m[k := Count(m, k) + 1]
  }

  /** No label tuple's count went down from `before` to `after`. */
  predicate NoneDecreased<K>(before: map<K, nat>, after: map<K, nat>)
  {
    forall k :: k in before ==> Count(before, k) <= Count(after, k)
  }

  lemma IncNeverDecreases<K(!new)>(m: map<K, nat>, k: K)
    ensures NoneDecreased(m, Inc(m, k))
  {
  }
}
