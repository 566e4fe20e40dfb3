# Request metrics middleware — Dafny model

This project models the request-observability layer of an expense-sharing
web backend: the `MetricsMiddleware` of `backend/app/core/metrics.py`. The
middleware wraps every HTTP request. It resolves the route template used as
the `path` label and skips configured paths. It calls the rest of the
application. It then files the request in a process-wide metric registry:

- `http_requests_total{method,path,status}`, a counter;
- `http_request_duration_seconds{method,path,status}`, a histogram;
- `http_request_errors_total{method,path}`, a counter.

Finally it returns the response or re-raises the exception.

The registry is an immutable record of three maps from label tuples to
naturals (`MetricRegistry.Registry`). A label tuple missing from a map reads
as zero, which matches the library creating a child lazily at zero. One call
of `dispatch` is a pure function `Metrics.Dispatch(registry, skipSet,
request, downstreamOutcome)`. It gives the new registry and what the caller
sees. The downstream call is an abstract `Outcome`: a response with an
integer status, a raised `Exception`, or a raised bare `BaseException` (for
example a task cancellation), which `except Exception` does not catch.

`Dispatch` is built from `TryBlock` (the `try`/`except Exception` part with
the `error_recorded` flag) and `FinallyBlock` (the `finally` part). These
follow the source's control flow. `FinallyBlock` even models `int()` failing
on the status label, which would replace the pending outcome with a
`ValueError`. `Expected` is an independent reference definition stated
without the flag or the string round trip. `DispatchMatchesReference`
proves that `Dispatch` equals it. The per-outcome lemmas follow from that
proof.

`Decimal` models Python's `str()` of an `int` and the part of `int()` that
reads such a string back, with the round trip `int(str(n)) == n`. This is
what makes the `int(status_code) >= 500` check in the `finally` block sound.
`Traffic` folds `Dispatch` over a sequence of requests. It proves that every
counter ends up equal to its start value plus the number of requests filed
under its labels.

Modules: `Optional`, `Decimal`, `Http` (request, route, response,
exception, outcome), `MetricRegistry`, `Metrics` (the middleware),
`Traffic` (runs of requests).

A bare `BaseException` skips `except Exception` (metrics.py:55). The
`finally` block then sees `"500"` with `error_recorded` false and counts the
error at metrics.py:64-65, so it is still counted exactly once
(`ExceptionKindsAgree`, `RaisedAccounting`).

## Model

| member | source | states |
|---|---|---|
| `Metrics.ResolvePathTemplate` | backend/app/core/metrics.py:27-29 | The path label is the matched route's `path` attribute when a route object with that attribute is present. Otherwise it is the raw URL path, including when no route matched. |
| `Metrics.SkipSet` | backend/app/core/metrics.py:37-39 | The skip set holds exactly the given paths. It is empty when `skip_paths` is `None` or empty. |
| `Metrics.AppSkipSet` | backend/app/main.py:26 | The application's middleware skips exactly `/metrics` and `/health`. |
| `Metrics.FailSafeStatusParses` | backend/app/core/metrics.py:48 | The fail-safe label `"500"` reads back through `int()` as 500, so it counts as a server error. |
| `Metrics.TryBlock` | backend/app/core/metrics.py:51-58 | A response sets the status label, and that label reads back as the response's code. Any raise keeps `"500"`. The flag is set exactly for an `Exception`, and then the (method, path) error counter rises by one. Request and histogram counts are untouched. |
| `Metrics.FinallyBlock` | backend/app/core/metrics.py:59-65 | Request and histogram counts always rise by one under (method, path, status). The error counter changes exactly when the flag is unset and the status reads as at least 500, and then by one. The `and` short-circuits: `int()` is applied only when the flag is unset, and a status that fails `int()` while the flag is unset would replace the outcome with `ValueError`; with the flag set the pending outcome always stands. |
| `Metrics.Dispatch` | backend/app/core/metrics.py:41-65 | The caller gets the downstream response or exception unchanged. A skipped path leaves the registry identical, and a measured one changes it. No counter decreases. No error child rises by more than one. |
| `Metrics.DispatchMatchesReference` | backend/app/core/metrics.py:41-65 | `dispatch` equals the reference accounting. A skip leaves everything unchanged. Otherwise there is one request and one observation under (method, path, recorded status), and one error under (method, path) exactly when the request raised or answered >= 500. |
| `Metrics.ResponseAccounting` | backend/app/core/metrics.py:52-65 | On a response, the request and observation counts for (method, path, str(status)) rise by exactly one. The error count rises by one if status >= 500 and is unchanged otherwise. No other child changes, and the response is returned as is. |
| `Metrics.RaisedAccounting` | backend/app/core/metrics.py:48-65 | On any raise, `Exception` or bare `BaseException`, the request is filed under `"500"` and the error count rises by exactly one. No other child changes, and the same exception propagates. |
| `Metrics.ErrorCountedIffFailed` | backend/app/core/metrics.py:55-65 | The error counter rises if and only if the request is measured and raised or answered >= 500. It never rises by more than one. |
| `Metrics.ExceptionKindsAgree` | backend/app/core/metrics.py:55-65 | An `Exception` counted in `except` and a bare `BaseException` counted by the `finally` check leave the same registry. |
| `Decimal.Show` | backend/app/core/metrics.py:53 | `str()` of an int is non-empty digits, with a leading minus sign exactly for negative values and no leading zero except for 0 itself. |
| `Decimal.Parse` | backend/app/core/metrics.py:64 | `int()` on a label succeeds only on non-empty input. A negative result needs a leading minus, and an all-digit string reads as a non-negative number. |
| `Decimal.ParseShow` | backend/app/core/metrics.py:53-64 | `int(str(code)) == code` for every integer status, so the `>= 500` check sees the response's real code. |
| `Decimal.ShowInjective` | backend/app/core/metrics.py:53-61 | Distinct status codes are filed under distinct status labels. |
| `MetricRegistry.Inc` | backend/app/core/metrics.py:56 | Incrementing a labelled child raises that child by one, creating it at zero if needed. It leaves every other child as it was. |
| `Traffic.Serve` | backend/app/core/metrics.py:10-24 | Handling a run of requests over the shared registry never decreases any counter or histogram count. |
| `Traffic.ServeCountsRequests` | backend/app/core/metrics.py:59-62 | After a run, each request and observation child equals its start value plus the number of measured requests filed under its labels. Each request is counted exactly once. |
| `Traffic.ServeCountsErrors` | backend/app/core/metrics.py:55-65 | After a run, each error child equals its start value plus the number of measured requests under (method, path) that raised or answered >= 500. |
| `Traffic.ServeErrorsAtMostOncePerRequest` | backend/app/core/metrics.py:49-65 | Over a run, the error child for (method, path) rises by at most the number of requests measured under (method, path). |
| `Traffic.GroupsScenario` | backend/app/core/metrics.py:41-65 | Three `GET /groups` answered 200, one `GET /groups/42` (route `/groups/{id}`) that raises, and a `/health` probe are run from an empty registry. They give 3 under (GET, /groups, 200), 1 under (GET, /groups/{id}, 500), 1 error under (GET, /groups/{id}), and nothing for the probe. This assumes the route object is already in the request scope when metrics.py:42 reads it. |
| `Traffic.UnroutedScenario` | backend/app/core/metrics.py:27-65 | The same run with no route object in scope at metrics.py:42 files each request under its raw URL path. This gives 3 under (GET, /groups, 200), 1 under (GET, /groups/42, 500), 1 error under (GET, /groups/42), nothing under `/groups/{id}`. The `/health` probe is still skipped. |

## Left out

- Timing: `time.perf_counter`, the elapsed duration, and the histogram's sum and buckets (metrics.py:47, 60, 62). These are floating point and depend on the clock. A histogram child is its observation count only, so no claim about the observed duration is made.
- Exposition: `build_metrics_response` (metrics.py:32-33) wraps the client library's `generate_latest` serializer with `CONTENT_TYPE_LATEST`. Neither is part of this model. The `/metrics` handler in `backend/app/api/system.py` is a thin wrapper around it.
- Concurrency: `async`/`await` and concurrent increments of the global registry. Requests are handled one after another. Atomic increments are the client library's concern.
- Metric values are naturals. The client library stores them as floats.
- The downstream call (`call_next`, handlers, the database) is an abstract `Outcome` given as a parameter. Forwarding the same request object to it is not modelled.
- Route availability: `Request.route` is taken as given at the moment metrics.py:42 reads `request.scope.get("route")`, before `call_next` at metrics.py:52. Whether the framework's router has already filled that key by then is not modelled, because the router is not part of this model. If it has not, every measured request is filed under its raw URL path; `Traffic.UnroutedScenario` shows the resulting labels, while `Traffic.GroupsScenario` assumes the route is already present.
- `Decimal.Parse`: accepts only an optional minus sign followed by digits. Python's `int()` also accepts surrounding whitespace, a `+` sign, digit-group underscores and non-ASCII Unicode decimal digits (such as `"٥٠٠"`). Such strings never reach it, because the label is either `"500"` or produced by `str()`.
- `Decimal.Show`: no 4300-digit limit. CPython's `str()`/`int()` raise `ValueError` past that limit. An HTTP status code never comes near it.
- `Metrics.SkipSet`: takes the paths as a sequence. Any other iterable, such as a generator or a bare string (which Python would split into characters), is not modelled.
- `backend/app/main.py`: framework wiring (CORS, routers, the integrity-error handler). Only its skip set is modelled, as `AppSkipPaths`.
- `backend/app/api/system.py`: the health check's database query is I/O.
- `backend/app/core/config.py`: loading settings from the environment is configuration I/O.
