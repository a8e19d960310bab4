/**
 * The older package tree's process-wide metrics (`REQUEST_COUNT` and
 * `REQUEST_LATENCY`) and the `metrics_middleware` that `setup_metrics`
 * installs: an exclusion check, then one latency observation and one count
 * increment per successful request.
 */
module LegacyMetrics {
  import opened Http
  import opened Events
  import opened Counters
  import Digits

  /** The `app_name` label `metrics_middleware` always writes. */
  const DefaultAppName := "fastapi-app"

  /** Labels of `http_request_count`: app_name, method, endpoint, http_status (as a string). */
  datatype CountLabels = CountLabels(appName: string, httpMethod: string, endpoint: string, httpStatus: string)

  /** Labels of `http_request_latency_seconds`: app_name, method, endpoint. */
  datatype LatencyLabels = LatencyLabels(appName: string, httpMethod: string, endpoint: string)

  /** One step a middleware of this tree takes, in order. */
  datatype Step =
    | CallNext(request: Request)
    | ObserveLatency(latency: LatencyLabels)
    | IncCount(count: CountLabels)
    | Emit(event: Event)

  /** The module-level `REQUEST_COUNT` counter and `REQUEST_LATENCY` histogram (observation counts). */
  class Registry {
    var requestCount: map<CountLabels, nat>
    var requestLatency: map<LatencyLabels, nat>

    constructor ()
      ensures requestCount == map[] && requestLatency == map[]
    {
      requestCount, requestLatency := map[], map[];
    }
  }

  /**
   * `excluded_endpoints and request.url.path in excluded_endpoints`: exact
   * string membership; without a list, or with an empty one, nothing is excluded.
   */
  predicate Excluded(excludedEndpoints: Option<seq<string>>, path: string): (b: bool)
    ensures b <==> excludedEndpoints.Some? && path in excludedEndpoints.value
    ensures excludedEndpoints.None? || excludedEndpoints.value == [] ==> !b
  {
    excludedEndpoints.Some? && |excludedEndpoints.value| > 0 && path in excludedEndpoints.value
  }

  function CountKey(appName: string, request: Request, status: int): (k: CountLabels)
    ensures k.appName == appName && k.httpMethod == request.httpMethod && k.endpoint == request.path
    ensures Digits.ParseDecimal(k.httpStatus) == status
  {
    Digits.DecimalRoundTrip(status);
    CountLabels(appName, request.httpMethod, request.path, Digits.DecimalString(status))
  }

  function LatencyKey(appName: string, request: Request): (k: LatencyLabels)
    ensures k.appName == appName && k.httpMethod == request.httpMethod && k.endpoint == request.path
  {
    LatencyLabels(appName, request.httpMethod, request.path)
  }

  /**
   * The `metrics_middleware` closure of `setup_metrics(app, excluded_endpoints)`.
   * The handler's response or exception comes back unchanged; only a
   * successful, non-excluded request touches the registry.
   */
  method MetricsMiddleware(registry: Registry, excludedEndpoints: Option<seq<string>>, request: Request, handler: Outcome)
    returns (r: Outcome, steps: seq<Step>)
    modifies registry
    ensures r == handler
    ensures Excluded(excludedEndpoints, request.path) || handler.Err? ==>
      && steps == [CallNext(request)]
      && registry.requestCount == old(registry.requestCount)
      && registry.requestLatency == old(registry.requestLatency)
    ensures !Excluded(excludedEndpoints, request.path) && handler.Ok? ==>
      && steps == [CallNext(request), ObserveLatency(LatencyKey(DefaultAppName, request)),
                   IncCount(CountKey(DefaultAppName, request, handler.response.statusCode))]
      && registry.requestLatency == Inc(old(registry.requestLatency), LatencyKey(DefaultAppName, request))
      && registry.requestCount == Inc(old(registry.requestCount), CountKey(DefaultAppName, request, handler.response.statusCode))
  {
    steps := [CallNext(request)];
    r := handler;
    if Excluded(excludedEndpoints, request.path) || handler.Err? {
      return;
    }
    var latency := LatencyKey(DefaultAppName, request);
    registry.requestLatency := Inc(registry.requestLatency, latency);
    steps := steps + [ObserveLatency(latency)];
    var count := CountKey(DefaultAppName, request, handler.response.statusCode);
    registry.requestCount := Inc(registry.requestCount, count);
    steps := steps + [IncCount(count)];
  }

  /** A request to an excluded path that raises leaves the registry untouched. */
  method ExcludedFailure() returns (r: Outcome, counts: nat, observations: nat)
    ensures r == Err(Exception("ValueError", "boom")) && counts == 0 && observations == 0
  {
    var registry := new Registry();
    var request := Request("GET", "http://testserver/health", "/health", None);
    var steps;
    r, steps := MetricsMiddleware(registry, Some(["/health"]), request, Err(Exception("ValueError", "boom")));
    counts, observations := |registry.requestCount|, |registry.requestLatency|;
  }
}
