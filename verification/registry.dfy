/**
 The process-wide metric registry of backend/app/core/metrics.py:10-24: two
 counters and a histogram, each a family of children keyed by label values.
 A child is created at zero the first time its labels are used, so a label
 tuple missing from a map reads as zero.  A histogram child is represented by
 its observation count only.
 */
module MetricRegistry {

  /** Label values of `http_requests_total` and `http_request_duration_seconds`. */
  datatype RequestLabels = RequestLabels(verb: string, path: string, status: string)

  /** Label values of `http_request_errors_total`. */
  datatype ErrorLabels = ErrorLabels(verb: string, path: string)

  datatype Registry = Registry(
    requests: map<RequestLabels, nat>,      // http_requests_total
    observations: map<RequestLabels, nat>,  // observation count of http_request_duration_seconds
    errors: map<ErrorLabels, nat>           // http_request_errors_total
  )

  /** The registry as declared at import time: no child exists yet. */
  const Empty := Registry(map[], map[], map[])

  /** Current value of the child for `k`; a child never used reads as zero. */
  function Value<K>(m: map<K, nat>, k: K): nat {
    if k in m then m[k] else 0
  }

  /** `labels(k).inc()` on a counter, or `labels(k).observe(_)` on the histogram's count. */
  function Inc<K(!new)>(m: map<K, nat>, k: K): (m': map<K, nat>)
    ensures Value(m', k) == Value(m, k) + 1
    ensures forall j :: j != k ==> Value(m', j) == Value(m, j)
    ensures m'.Keys == m.Keys + {k}
  {
    m[k := Value(m, k) + 1]
  }

  /** No child of any metric has a smaller value in `r'` than in `r`. */
  ghost predicate Grows(r: Registry, r': Registry) {
    && (forall k :: Value(r.requests, k) <= Value(r'.requests, k))
    && (forall k :: Value(r.observations, k) <= Value(r'.observations, k))
    && (forall l :: Value(r.errors, l) <= Value(r'.errors, l))
  }

  lemma GrowsTransitive(r0: Registry, r1: Registry, r2: Registry)
    requires Grows(r0, r1) && Grows(r1, r2)
    ensures Grows(r0, r2)
  {
  }

}
