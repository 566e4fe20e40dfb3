/**
 The request-metrics middleware of backend/app/core/metrics.py: path
 resolution, the skip set, and one call of `dispatch` as a pure step from
 the registry before the request to the registry after it, together with
 what the caller of the middleware sees.
 */
module Metrics {
  import opened Optional
  import opened Decimal
  import opened Http
  import opened MetricRegistry

  /** The paths the application excludes from measurement (backend/app/main.py:26). */
  const AppSkipPaths: seq<string> := ["/metrics", "/health"]

  /** The status a request is filed under until a response is known. */
  const FailSafeStatus: string := "500"

  /** `int("500") == 500`: the fail-safe label reads back as a server error. */
  lemma FailSafeStatusParses()
    ensures Parse(FailSafeStatus) == Some(500)
  {
    var s := FailSafeStatus;
    assert AllDigits(s);
    assert s[..2] == "50" && s[..2][..1] == "5" && s[..2][..1][..0] == "";
    assert DigitsValue(s[..2][..1]) == 5;
    assert DigitsValue(s[..2]) == 50;
    assert DigitsValue(s) == 500;
  }

  /** What `int()` raises in the `finally` block if the status label is not a number. */
  const ValueError := Raisable("ValueError", true)

  /**
   The label used for the request's path: the matched route's `path`
   attribute when there is a route object that has one, and the raw URL
   path otherwise.
   */
  function ResolvePathTemplate(req: Request): (path: string)
    ensures req.route.Some? && req.route.value.path.Some? ==> path == req.route.value.path.value
    ensures req.route.None? || req.route.value.path.None? ==> path == req.urlPath
  {
    match req.route
    case Some(Route(Some(template))) => template
    case _ => req.urlPath
  }

  /**
   The middleware's skip set built from its `skip_paths` argument: `None`
   and an empty collection both give the empty set.
   */
  function SkipSet(skipPaths: Option<seq<string>>): (skip: set<string>)
    ensures forall p :: p in skip <==> skipPaths.Some? && p in skipPaths.value
    ensures skipPaths.None? || skipPaths == Some([]) ==> skip == {}
  {
    var given := if skipPaths.None? || |skipPaths.value| == 0 then [] else skipPaths.value;
    set p | p in given
  }

  /** The application's middleware skips exactly the exposition and health-check paths. */
  lemma AppSkipSet()
    ensures SkipSet(Some(AppSkipPaths)) == {"/metrics", "/health"}
  {
  }

  /** State after the `try`/`except` part of a measured request: the status label, the flag, the registry. */
  datatype Measured = Measured(statusCode: string, errorRecorded: bool, registry: Registry)

  /** What the caller of the middleware gets back, and the registry afterwards. */
  datatype Handled = Handled(registry: Registry, outcome: Outcome)

  /**
   The `try`/`except Exception` part of `dispatch`: a returned response
   sets the status label; an `Exception` bumps the error counter and sets
   the flag; a bare `BaseException` passes through untouched.
   */
  function TryBlock(reg: Registry, verb: string, path: string, downstream: Outcome): (m: Measured)
    ensures m.errorRecorded <==> downstream.Raised? && downstream.error.isException
    ensures downstream.Raised? ==> m.statusCode == FailSafeStatus
    ensures downstream.Returned? ==> Parse(m.statusCode) == Some(downstream.response.statusCode)
    ensures m.registry.requests == reg.requests && m.registry.observations == reg.observations
    ensures Value(m.registry.errors, ErrorLabels(verb, path))
            == Value(reg.errors, ErrorLabels(verb, path)) + (if m.errorRecorded then 1 else 0)
    ensures forall l :: l != ErrorLabels(verb, path) ==> Value(m.registry.errors, l) == Value(reg.errors, l)
  {
    match downstream
    case Returned(response) =>
      ParseShow(response.statusCode);
      Measured(Show(response.statusCode), false, reg)
    case Raised(e) =>
      if e.isException then
        Measured(FailSafeStatus, true, reg.(errors := Inc(reg.errors, ErrorLabels(verb, path))))
      else
        Measured(FailSafeStatus, false, reg)
  }

  /**
   The `finally` part of `dispatch`.  `pending` is what the `try` part is
   about to return or raise; an exception raised here would replace it.
   The `and` in the error check short-circuits, so `int()` is only applied
   to the status label when the flag is unset.
   */
  function FinallyBlock(m: Measured, verb: string, path: string, pending: Outcome): (h: Handled)
    ensures m.errorRecorded || Parse(m.statusCode).Some? ==> h.outcome == pending
    ensures !m.errorRecorded && Parse(m.statusCode).None? ==> h.outcome == Raised(ValueError)
    ensures h.registry.requests == Inc(m.registry.requests, RequestLabels(verb, path, m.statusCode))
    ensures h.registry.observations == Inc(m.registry.observations, RequestLabels(verb, path, m.statusCode))
    ensures h.registry.errors != m.registry.errors <==>
              !m.errorRecorded && Parse(m.statusCode).Some? && Parse(m.statusCode).value >= 500
    ensures h.registry.errors != m.registry.errors ==> h.registry.errors == Inc(m.registry.errors, ErrorLabels(verb, path))
  {
    var k := RequestLabels(verb, path, m.statusCode);
    var counted := m.registry.(requests := Inc(m.registry.requests, k),
                               observations := Inc(m.registry.observations, k));
    if m.errorRecorded then
      Handled(counted, pending)
    else
      match Parse(m.statusCode)
      case None => Handled(counted, Raised(ValueError))
      case Some(code) =>
        if code >= 500 then
          var reg' := counted.(errors := Inc(counted.errors, ErrorLabels(verb, path)));
          assert Value(reg'.errors, ErrorLabels(verb, path)) != Value(counted.errors, ErrorLabels(verb, path));
          Handled(reg', pending)
        else
          Handled(counted, pending)
  }

  /**
   One call of `MetricsMiddleware.dispatch` whose downstream call ends with
   `downstream`.
   */
  function Dispatch(reg: Registry, skip: set<string>, req: Request, downstream: Outcome): (h: Handled)
    ensures h.outcome == downstream
    ensures ResolvePathTemplate(req) in skip ==> h.registry == reg
    ensures ResolvePathTemplate(req) !in skip ==> h.registry != reg
    ensures Grows(reg, h.registry)
    ensures forall l :: Value(h.registry.errors, l) <= Value(reg.errors, l) + 1
  {
    var path := ResolvePathTemplate(req);
    if path in skip then
      Handled(reg, downstream)
    else
      var verb := req.verb;
      var m := TryBlock(reg, verb, path, downstream);
      FailSafeStatusParses();
      var h := FinallyBlock(m, verb, path, downstream);
      assert Value(h.registry.requests, RequestLabels(verb, path, m.statusCode))
             != Value(reg.requests, RequestLabels(verb, path, m.statusCode));
      h
  }

  // Reference accounting: what one measured request should leave in the registry.

  /** The status label a measured request is filed under. */
  function RecordedStatus(downstream: Outcome): string {
    match downstream
    case Returned(response) => Show(response.statusCode)
    case Raised(_) => FailSafeStatus
  }

  /** A request counts as an error when it raised anything or answered with a 5xx (or higher) status. */
  predicate Failed(downstream: Outcome) {
    downstream.Raised? || downstream.response.statusCode >= 500
  }

  /**
   The registry after one request, stated without the `error_recorded`
   flag or the string round trip: one request and one observation under
   (method, path, recorded status), and one error under (method, path)
   exactly when the request failed.
   */
  function Expected(reg: Registry, skip: set<string>, req: Request, downstream: Outcome): Registry {
    var path := ResolvePathTemplate(req);
    if path in skip then reg
    else
      var k := RequestLabels(req.verb, path, RecordedStatus(downstream));
      Registry(
        Inc(reg.requests, k),
        Inc(reg.observations, k),
        if Failed(downstream) then Inc(reg.errors, ErrorLabels(req.verb, path)) else reg.errors)
  }

  /** `dispatch` performs exactly the reference accounting and hands back the downstream outcome. */
  lemma DispatchMatchesReference(reg: Registry, skip: set<string>, req: Request, downstream: Outcome)
    ensures Dispatch(reg, skip, req, downstream) == Handled(Expected(reg, skip, req, downstream), downstream)
  {
    var path := ResolvePathTemplate(req);
    if path !in skip {
      var m := TryBlock(reg, req.verb, path, downstream);
      FailSafeStatusParses();
      if downstream.Returned? {
        ParseShow(downstream.response.statusCode);
      }
      if downstream.Raised? && downstream.error.isException {
        assert m.registry.errors == Inc(reg.errors, ErrorLabels(req.verb, path));
      } else {
        assert m.registry == reg;
      }
    }
  }

  /**
   A measured request that returns a response: the request counter and the
   observation count for (method, path, str(status)) rise by one, the error
   counter for (method, path) rises by one exactly when the status is at
   least 500, no other child changes, and the response is returned as is.
   */
  lemma ResponseAccounting(reg: Registry, skip: set<string>, req: Request, response: Response)
    requires ResolvePathTemplate(req) !in skip
    ensures var h := Dispatch(reg, skip, req, Returned(response));
      var k := RequestLabels(req.verb, ResolvePathTemplate(req), Show(response.statusCode));
      var l := ErrorLabels(req.verb, ResolvePathTemplate(req));
      && h.outcome == Returned(response)
      && Value(h.registry.requests, k) == Value(reg.requests, k) + 1
      && Value(h.registry.observations, k) == Value(reg.observations, k) + 1
      && (forall j :: j != k ==> Value(h.registry.requests, j) == Value(reg.requests, j))
      && (forall j :: j != k ==> Value(h.registry.observations, j) == Value(reg.observations, j))
      && Value(h.registry.errors, l) == Value(reg.errors, l) + (if response.statusCode >= 500 then 1 else 0)
      && (forall j :: j != l ==> Value(h.registry.errors, j) == Value(reg.errors, j))
  {
  }

  /**
   A measured request whose downstream call raises, whether an `Exception`
   or a bare `BaseException`: it is filed under status "500", the error
   counter for (method, path) rises by exactly one, no other child changes,
   and the same exception propagates.
   */
  lemma RaisedAccounting(reg: Registry, skip: set<string>, req: Request, e: Raisable)
    requires ResolvePathTemplate(req) !in skip
    ensures var h := Dispatch(reg, skip, req, Raised(e));
      var k := RequestLabels(req.verb, ResolvePathTemplate(req), FailSafeStatus);
      var l := ErrorLabels(req.verb, ResolvePathTemplate(req));
      && h.outcome == Raised(e)
      && Value(h.registry.requests, k) == Value(reg.requests, k) + 1
      && Value(h.registry.observations, k) == Value(reg.observations, k) + 1
      && (forall j :: j != k ==> Value(h.registry.requests, j) == Value(reg.requests, j))
      && (forall j :: j != k ==> Value(h.registry.observations, j) == Value(reg.observations, j))
      && Value(h.registry.errors, l) == Value(reg.errors, l) + 1
      && (forall j :: j != l ==> Value(h.registry.errors, j) == Value(reg.errors, j))
  {
    DispatchMatchesReference(reg, skip, req, Raised(e));
  }

  /**
   The error counter of a measured request's (method, path) rises if and
   only if the request failed, and then by exactly one; it never rises on a
   skipped request.
   */
  lemma ErrorCountedIffFailed(reg: Registry, skip: set<string>, req: Request, downstream: Outcome)
    ensures var h := Dispatch(reg, skip, req, downstream);
      var l := ErrorLabels(req.verb, ResolvePathTemplate(req));
      && (Value(h.registry.errors, l) > Value(reg.errors, l)
          <==> ResolvePathTemplate(req) !in skip && Failed(downstream))
      && Value(h.registry.errors, l) <= Value(reg.errors, l) + 1
  {
    DispatchMatchesReference(reg, skip, req, downstream);
  }

  /**
   An `Exception` counted in the `except` branch and a bare `BaseException`
   counted by the `finally` check leave the same registry behind.
   */
  lemma ExceptionKindsAgree(reg: Registry, skip: set<string>, req: Request, e: Raisable, b: Raisable)
    requires e.isException && !b.isException
    ensures Dispatch(reg, skip, req, Raised(e)).registry == Dispatch(reg, skip, req, Raised(b)).registry
  {
    DispatchMatchesReference(reg, skip, req, Raised(e));
    DispatchMatchesReference(reg, skip, req, Raised(b));
  }

}
