/**
 * The older package tree's `FastAPIObservability`: two HTTP middlewares on
 * the application, one counting requests and observing their duration, one
 * logging `request_started` before and `request_completed` after the
 * handler. Neither catches anything: when the handler raises, the exception
 * passes through and only what happened before `call_next` remains.
 */
module LegacyFacade {
  import opened Http
  import opened Events
  import opened Counters
  import Digits
  import LegacyMetrics

  /** Labels of `http_requests_total`: method, endpoint and status (as a string). */
  datatype CountLabels = CountLabels(httpMethod: string, endpoint: string, status: string)

  /** Labels of `http_request_duration_seconds`: method and endpoint. */
  datatype DurationLabels = DurationLabels(httpMethod: string, endpoint: string)

  /** One step the middlewares take, in order. */
  datatype Step =
    | CallNext(request: Request)
    | IncCount(count: CountLabels)
    | ObserveDuration(duration: DurationLabels)
    | Log(event: Event)

  /** The `request_started` event, with `client = None` when the client is unknown. */
  function StartedEvent(request: Request): (e: Event)
    ensures e.level == Info && e.name == "request_started"
    ensures e.fields.Keys == {"method", "path", "client"}
    ensures e.fields["method"] == Str(request.httpMethod) && e.fields["path"] == Str(request.path)
    ensures e.fields["client"].Null? <==> request.client.None?
    ensures request.client.Some? ==> e.fields["client"] == Str(request.client.value)
  {
    Event(Info, "request_started",
          map["method" := Str(request.httpMethod), "path" := Str(request.path),
              "client" := if request.client.Some? then Str(request.client.value) else Null])
  }

  /** The `request_completed` event, carrying the response's status code. */
  function CompletedEvent(request: Request, response: Response): (e: Event)
    ensures e.level == Info && e.name == "request_completed"
    ensures e.fields.Keys == {"method", "path", "status_code"}
    ensures e.fields["method"] == Str(request.httpMethod) && e.fields["path"] == Str(request.path)
    ensures e.fields["status_code"] == Int(response.statusCode)
  {
    Event(Info, "request_completed",
          map["method" := Str(request.httpMethod), "path" := Str(request.path),
              "status_code" := Int(response.statusCode)])
  }

  /** `request_count.labels(method, endpoint, status)`: the status label is `str(status_code)`. */
  function CountKey(request: Request, status: int): (k: CountLabels)
    ensures k.httpMethod == request.httpMethod && k.endpoint == request.path
    ensures Digits.ParseDecimal(k.status) == status
  {
    Digits.DecimalRoundTrip(status);
    CountLabels(request.httpMethod, request.path, Digits.DecimalString(status))
  }

  function DurationKey(request: Request): (k: DurationLabels)
    ensures k.httpMethod == request.httpMethod && k.endpoint == request.path
  {
    DurationLabels(request.httpMethod, request.path)
  }

  class Observability {
    const appName: string
    var requestCount: map<CountLabels, nat>
    var requestDuration: map<DurationLabels, nat>
    /** `structlog.get_logger()`: the sink its events are printed to. */
    const logger: EventLog

    /** `__init__` after `_setup_metrics` and `_setup_logging`: fresh metrics, nothing logged. */
    constructor (appName: string)
      ensures this.appName == appName
      ensures requestCount == map[] && requestDuration == map[]
      ensures fresh(logger) && logger.events == []
    {
      this.appName := appName;
      requestCount, requestDuration := map[], map[];
      logger := new EventLog();
    }

    /**
     * `metrics_middleware`: after a response, one count at (method, path,
     * status) and then one duration observation at (method, path). A raising
     * handler leaves both untouched.
     */
    method MetricsMiddleware(request: Request, handler: Outcome) returns (r: Outcome, steps: seq<Step>)
      modifies this
      ensures r == handler
      ensures logger.events == old(logger.events)
      ensures handler.Err? ==>
        && steps == [CallNext(request)]
        && requestCount == old(requestCount) && requestDuration == old(requestDuration)
      ensures handler.Ok? ==>
        && steps == [CallNext(request), IncCount(CountKey(request, handler.response.statusCode)),
                     ObserveDuration(DurationKey(request))]
        && requestCount == Inc(old(requestCount), CountKey(request, handler.response.statusCode))
        && requestDuration == Inc(old(requestDuration), DurationKey(request))
    {
      steps := [CallNext(request)];
      r := handler;
      if handler.Err? {
        return;
      }
      var count := CountKey(request, handler.response.statusCode);
      requestCount := Inc(requestCount, count);
      var duration := DurationKey(request);
      requestDuration := Inc(requestDuration, duration);
      steps := steps + [IncCount(count), ObserveDuration(duration)];
    }

    /**
     * `logging_middleware`: `request_started` before the handler runs and,
     * once it returns, `request_completed`. A raising handler leaves only the
     * first event.
     */
    method LoggingMiddleware(request: Request, handler: Outcome) returns (r: Outcome, steps: seq<Step>)
      modifies this, logger
      ensures r == handler
      ensures requestCount == old(requestCount) && requestDuration == old(requestDuration)
      ensures handler.Err? ==>
        && steps == [Log(StartedEvent(request)), CallNext(request)]
        && logger.events == old(logger.events) + [StartedEvent(request)]
      ensures handler.Ok? ==>
        && steps == [Log(StartedEvent(request)), CallNext(request), Log(CompletedEvent(request, handler.response))]
        && logger.events == old(logger.events) + [StartedEvent(request), CompletedEvent(request, handler.response)]
    {
      var started := StartedEvent(request);
      logger.Emit(started);
      steps := [Log(started), CallNext(request)];
      r := handler;
      if handler.Err? {
        return;
      }
      var completed := CompletedEvent(request, handler.response);
      logger.Emit(completed);
      steps := steps + [Log(completed)];
    }

    /**
     * One request through both middlewares. The logging middleware is
     * registered last, so it is the outer one and its `call_next` runs the
     * metrics middleware, whose `call_next` runs the handler.
     */
    method Serve(request: Request, handler: Outcome) returns (r: Outcome, steps: seq<Step>)
      modifies this, logger
      ensures r == handler
      ensures handler.Err? ==>
        && steps == [Log(StartedEvent(request)), CallNext(request)]
        && logger.events == old(logger.events) + [StartedEvent(request)]
        && requestCount == old(requestCount) && requestDuration == old(requestDuration)
      ensures handler.Ok? ==>
        && steps == [Log(StartedEvent(request)), CallNext(request),
                     IncCount(CountKey(request, handler.response.statusCode)),
                     ObserveDuration(DurationKey(request)),
                     Log(CompletedEvent(request, handler.response))]
        && logger.events == old(logger.events) + [StartedEvent(request), CompletedEvent(request, handler.response)]
        && requestCount == Inc(old(requestCount), CountKey(request, handler.response.statusCode))
        && requestDuration == Inc(old(requestDuration), DurationKey(request))
    {
      var started := StartedEvent(request);
      logger.Emit(started);
      var inner;
      r, inner := MetricsMiddleware(request, handler);
      steps := [Log(started)] + inner;
      if r.Err? {
        return;
      }
      var completed := CompletedEvent(request, r.response);
      logger.Emit(completed);
      steps := steps + [Log(completed)];
    }
  }

  /** One GET /items with status 201 and one raising request on a fresh instance. */
  method TwoRequests() returns (counted: nat, observed: nat, names: seq<string>)
    ensures counted == 1 && observed == 1
    ensures names == ["request_started", "request_completed", "request_started"]
  {
    var o := new Observability(LegacyMetrics.DefaultAppName);
    var request := Request("GET", "http://testserver/items", "/items", None);
    var r, steps := o.Serve(request, Ok(Response(201, "")));
    r, steps := o.Serve(request, Err(Exception("ValueError", "boom")));
    counted := |o.requestCount|;
    observed := Count(o.requestDuration, DurationKey(request));
    names := [o.logger.events[0].name, o.logger.events[1].name, o.logger.events[2].name];
  }
}
