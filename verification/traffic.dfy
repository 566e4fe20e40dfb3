/**
 A sequence of requests handled one after another by the same middleware
 over the same process-wide registry, and what the registry then holds:
 every counter equals its start value plus the number of requests filed
 under its labels.
 */
module Traffic {
  import opened Optional
  import opened Decimal
  import opened Http
  import opened MetricRegistry
  import opened Metrics

  /** One request together with how the downstream call for it ends. */
  datatype Exchange = Exchange(request: Request, downstream: Outcome)

  /** Whether `x` is measured under the request labels `k`. */
  predicate FiledUnder(skip: set<string>, x: Exchange, k: RequestLabels) {
    var path := ResolvePathTemplate(x.request);
    path !in skip && k == RequestLabels(x.request.verb, path, RecordedStatus(x.downstream))
  }

  /** Whether `x` is measured under the error labels `l`, successful or not. */
  predicate MeasuredAt(skip: set<string>, x: Exchange, l: ErrorLabels) {
    var path := ResolvePathTemplate(x.request);
    path !in skip && l == ErrorLabels(x.request.verb, path)
  }

  /** Number of exchanges in `xs` filed under `k`. */
  function FiledCount(skip: set<string>, xs: seq<Exchange>, k: RequestLabels): nat
    decreases |xs|
  {
    if |xs| == 0 then 0 else (if FiledUnder(skip, xs[0], k) then 1 else 0) + FiledCount(skip, xs[1..], k)
  }

  /** Number of exchanges in `xs` measured under `l`. */
  function MeasuredCount(skip: set<string>, xs: seq<Exchange>, l: ErrorLabels): nat
    decreases |xs|
  {
    if |xs| == 0 then 0 else (if MeasuredAt(skip, xs[0], l) then 1 else 0) + MeasuredCount(skip, xs[1..], l)
  }

  /** Number of exchanges in `xs` measured under `l` that failed. */
  function FailedCount(skip: set<string>, xs: seq<Exchange>, l: ErrorLabels): nat
    decreases |xs|
  {
    if |xs| == 0 then 0
    else (if MeasuredAt(skip, xs[0], l) && Failed(xs[0].downstream) then 1 else 0) + FailedCount(skip, xs[1..], l)
  }

  /** The registry after the middleware has handled `xs` in order, starting from `reg`. */
  function Serve(reg: Registry, skip: set<string>, xs: seq<Exchange>): (r: Registry)
    ensures Grows(reg, r)
    decreases |xs|
  {
    if |xs| == 0 then reg
    else
      var next := Dispatch(reg, skip, xs[0].request, xs[0].downstream).registry;
      var r := Serve(next, skip, xs[1..]);
      GrowsTransitive(reg, next, r);
      r
  }

  /** Every request and observation child counts exactly the requests filed under its labels. */
  lemma {:induction false} ServeCountsRequests(reg: Registry, skip: set<string>, xs: seq<Exchange>, k: RequestLabels)
    ensures Value(Serve(reg, skip, xs).requests, k) == Value(reg.requests, k) + FiledCount(skip, xs, k)
    ensures Value(Serve(reg, skip, xs).observations, k) == Value(reg.observations, k) + FiledCount(skip, xs, k)
    decreases |xs|
  {
    if |xs| > 0 {
      var x := xs[0];
      var next := Dispatch(reg, skip, x.request, x.downstream).registry;
      DispatchMatchesReference(reg, skip, x.request, x.downstream);
      ServeCountsRequests(next, skip, xs[1..], k);
    }
  }

  /** Every error child counts exactly the failed requests measured under its labels. */
  lemma {:induction false} ServeCountsErrors(reg: Registry, skip: set<string>, xs: seq<Exchange>, l: ErrorLabels)
    ensures Value(Serve(reg, skip, xs).errors, l) == Value(reg.errors, l) + FailedCount(skip, xs, l)
    decreases |xs|
  {
    if |xs| > 0 {
      var x := xs[0];
      var next := Dispatch(reg, skip, x.request, x.downstream).registry;
      DispatchMatchesReference(reg, skip, x.request, x.downstream);
      ServeCountsErrors(next, skip, xs[1..], l);
    }
  }

  /** No request is counted as an error more than once: failures never outnumber measured requests. */
  lemma {:induction false} FailuresBoundedByRequests(skip: set<string>, xs: seq<Exchange>, l: ErrorLabels)
    ensures FailedCount(skip, xs, l) <= MeasuredCount(skip, xs, l)
    decreases |xs|
  {
    if |xs| > 0 {
      FailuresBoundedByRequests(skip, xs[1..], l);
    }
  }

  /**
   Over any run, the error counter of (method, path) rises by at most the
   number of requests measured under (method, path): at most one error per
   request.
   */
  lemma ServeErrorsAtMostOncePerRequest(reg: Registry, skip: set<string>, xs: seq<Exchange>, l: ErrorLabels)
    ensures Value(Serve(reg, skip, xs).errors, l) <= Value(reg.errors, l) + MeasuredCount(skip, xs, l)
  {
    ServeCountsErrors(reg, skip, xs, l);
    FailuresBoundedByRequests(skip, xs, l);
  }

  /** The scenario's exchanges: a listing answered 200, an item lookup that raises, a health probe. */
  const ListGroups := Exchange(Request("GET", "/groups", Some(Route(Some("/groups")))), Returned(Response(200, "[]")))
  const GetGroup := Exchange(Request("GET", "/groups/42", Some(Route(Some("/groups/{id}")))), Raised(Raisable("RuntimeError", true)))
  const HealthProbe := Exchange(Request("GET", "/health", Some(Route(Some("/health")))), Returned(Response(503, "")))

  /**
   Three `GET /groups` requests answered 200, then a `GET /groups/42` routed
   to `/groups/{id}` that raises, then a `/health` probe answered 503: from an
   empty registry with the application's skip set this leaves 3 requests
   under (GET, /groups, 200), one request under (GET, /groups/{id}, 500), one
   error under (GET, /groups/{id}), no error under (GET, /groups), and nothing
   for the skipped probe.
   */
  lemma GroupsScenario()
    ensures var r := Serve(Empty, SkipSet(Some(AppSkipPaths)), [ListGroups, ListGroups, ListGroups, GetGroup, HealthProbe]);
      && Value(r.requests, RequestLabels("GET", "/groups", "200")) == 3
      && Value(r.requests, RequestLabels("GET", "/groups/{id}", "500")) == 1
      && Value(r.errors, ErrorLabels("GET", "/groups/{id}")) == 1
      && Value(r.errors, ErrorLabels("GET", "/groups")) == 0
      && Value(r.requests, RequestLabels("GET", "/health", "503")) == 0
      && Value(r.errors, ErrorLabels("GET", "/health")) == 0
  {
    var skip := SkipSet(Some(AppSkipPaths));
    AppSkipSet();
    ShowOf200();
    var ok := RequestLabels("GET", "/groups", "200");
    var bad := RequestLabels("GET", "/groups/{id}", "500");
    var health := RequestLabels("GET", "/health", "503");
    assert FiledUnder(skip, ListGroups, ok) && !FiledUnder(skip, GetGroup, ok) && !FiledUnder(skip, HealthProbe, ok);
    assert !FiledUnder(skip, ListGroups, bad) && FiledUnder(skip, GetGroup, bad) && !FiledUnder(skip, HealthProbe, bad);
    assert !FiledUnder(skip, ListGroups, health) && !FiledUnder(skip, GetGroup, health) && !FiledUnder(skip, HealthProbe, health);
    ScenarioRequests(skip, ListGroups, GetGroup, HealthProbe, ok);
    ScenarioRequests(skip, ListGroups, GetGroup, HealthProbe, bad);
    ScenarioRequests(skip, ListGroups, GetGroup, HealthProbe, health);
    var groupsErr := ErrorLabels("GET", "/groups");
    var itemErr := ErrorLabels("GET", "/groups/{id}");
    var healthErr := ErrorLabels("GET", "/health");
    assert !Failed(ListGroups.downstream) && Failed(GetGroup.downstream);
    assert MeasuredAt(skip, GetGroup, itemErr) && !MeasuredAt(skip, HealthProbe, itemErr);
    assert !MeasuredAt(skip, GetGroup, groupsErr) && !MeasuredAt(skip, HealthProbe, groupsErr);
    assert !MeasuredAt(skip, GetGroup, healthErr) && !MeasuredAt(skip, HealthProbe, healthErr);
    ScenarioErrors(skip, ListGroups, GetGroup, HealthProbe, groupsErr);
    ScenarioErrors(skip, ListGroups, GetGroup, HealthProbe, itemErr);
    ScenarioErrors(skip, ListGroups, GetGroup, HealthProbe, healthErr);
  }

  /** The scenario's exchanges with no route object in the request scope yet. */
  const ListGroupsUnrouted := Exchange(ListGroups.request.(route := None), ListGroups.downstream)
  const GetGroupUnrouted := Exchange(GetGroup.request.(route := None), GetGroup.downstream)
  const HealthProbeUnrouted := Exchange(HealthProbe.request.(route := None), HealthProbe.downstream)

  /**
   The same run when no route object is in scope at the moment the path is
   resolved: each request is filed under its raw URL path, so the failing
   lookup lands under `/groups/42` rather than `/groups/{id}`, and the
   health probe is still skipped because its raw path is in the skip set.
   */
  lemma UnroutedScenario()
    ensures var r := Serve(Empty, SkipSet(Some(AppSkipPaths)),
                           [ListGroupsUnrouted, ListGroupsUnrouted, ListGroupsUnrouted, GetGroupUnrouted, HealthProbeUnrouted]);
      && Value(r.requests, RequestLabels("GET", "/groups", "200")) == 3
      && Value(r.requests, RequestLabels("GET", "/groups/42", "500")) == 1
      && Value(r.requests, RequestLabels("GET", "/groups/{id}", "500")) == 0
      && Value(r.errors, ErrorLabels("GET", "/groups/42")) == 1
      && Value(r.errors, ErrorLabels("GET", "/groups/{id}")) == 0
      && Value(r.errors, ErrorLabels("GET", "/health")) == 0
  {
    var skip := SkipSet(Some(AppSkipPaths));
    AppSkipSet();
    ShowOf200();
    var a, b, c := ListGroupsUnrouted, GetGroupUnrouted, HealthProbeUnrouted;
    var ok := RequestLabels("GET", "/groups", "200");
    var raw := RequestLabels("GET", "/groups/42", "500");
    var templ := RequestLabels("GET", "/groups/{id}", "500");
    assert FiledUnder(skip, a, ok) && !FiledUnder(skip, b, ok) && !FiledUnder(skip, c, ok);
    assert !FiledUnder(skip, a, raw) && FiledUnder(skip, b, raw) && !FiledUnder(skip, c, raw);
    assert !FiledUnder(skip, a, templ) && !FiledUnder(skip, b, templ) && !FiledUnder(skip, c, templ);
    ScenarioRequests(skip, a, b, c, ok);
    ScenarioRequests(skip, a, b, c, raw);
    ScenarioRequests(skip, a, b, c, templ);
    var rawErr := ErrorLabels("GET", "/groups/42");
    var templErr := ErrorLabels("GET", "/groups/{id}");
    var healthErr := ErrorLabels("GET", "/health");
    assert !Failed(a.downstream) && Failed(b.downstream);
    assert MeasuredAt(skip, b, rawErr) && !MeasuredAt(skip, c, rawErr);
    assert !MeasuredAt(skip, b, templErr) && !MeasuredAt(skip, c, templErr);
    assert !MeasuredAt(skip, b, healthErr) && !MeasuredAt(skip, c, healthErr);
    ScenarioErrors(skip, a, b, c, rawErr);
    ScenarioErrors(skip, a, b, c, templErr);
    ScenarioErrors(skip, a, b, c, healthErr);
  }

  /** Request counts from an empty registry for three of `a`, then `b`, then `c`. */
  lemma ScenarioRequests(skip: set<string>, a: Exchange, b: Exchange, c: Exchange, k: RequestLabels)
    ensures Value(Serve(Empty, skip, [a, a, a, b, c]).requests, k)
            == 3 * (if FiledUnder(skip, a, k) then 1 else 0)
               + (if FiledUnder(skip, b, k) then 1 else 0) + (if FiledUnder(skip, c, k) then 1 else 0)
  {
    var ia, ib, ic := (if FiledUnder(skip, a, k) then 1 else 0), (if FiledUnder(skip, b, k) then 1 else 0),
                      (if FiledUnder(skip, c, k) then 1 else 0);
    assert [c][1..] == [];
    assert FiledCount(skip, [c], k) == ic;
    assert [b, c][1..] == [c];
    assert FiledCount(skip, [b, c], k) == ib + ic;
    assert [a, b, c][1..] == [b, c];
    assert FiledCount(skip, [a, b, c], k) == ia + ib + ic;
    assert [a, a, b, c][1..] == [a, b, c];
    assert FiledCount(skip, [a, a, b, c], k) == 2 * ia + ib + ic;
    assert [a, a, a, b, c][1..] == [a, a, b, c];
    ServeCountsRequests(Empty, skip, [a, a, a, b, c], k);
  }

  /** Error counts from an empty registry for three of `a`, then `b`, then `c`. */
  lemma ScenarioErrors(skip: set<string>, a: Exchange, b: Exchange, c: Exchange, l: ErrorLabels)
    ensures Value(Serve(Empty, skip, [a, a, a, b, c]).errors, l)
            == 3 * (if MeasuredAt(skip, a, l) && Failed(a.downstream) then 1 else 0)
               + (if MeasuredAt(skip, b, l) && Failed(b.downstream) then 1 else 0)
               + (if MeasuredAt(skip, c, l) && Failed(c.downstream) then 1 else 0)
  {
    var ia, ib, ic := (if MeasuredAt(skip, a, l) && Failed(a.downstream) then 1 else 0),
                      (if MeasuredAt(skip, b, l) && Failed(b.downstream) then 1 else 0),
                      (if MeasuredAt(skip, c, l) && Failed(c.downstream) then 1 else 0);
    assert [c][1..] == [];
    assert FailedCount(skip, [c], l) == ic;
    assert [b, c][1..] == [c];
    assert FailedCount(skip, [b, c], l) == ib + ic;
    assert [a, b, c][1..] == [b, c];
    assert FailedCount(skip, [a, b, c], l) == ia + ib + ic;
    assert [a, a, b, c][1..] == [a, b, c];
    assert FailedCount(skip, [a, a, b, c], l) == 2 * ia + ib + ic;
    assert [a, a, a, b, c][1..] == [a, a, b, c];
    ServeCountsErrors(Empty, skip, [a, a, a, b, c], l);
  }

  /** `str(200) == "200"`. */
  lemma ShowOf200()
    ensures Show(200) == "200"
  {
  }

}
