/**
 * The older package tree's `ObservabilityMiddleware`: excluded paths go
 * straight to the handler; every other request bumps the shared
 * `REQUEST_COUNT` (with status 500 when the handler raises), observes
 * `REQUEST_LATENCY` on success, and emits one event carrying the span's ids.
 */
module LegacyMiddleware {
  import opened Http
  import opened Events
  import opened Counters
  import opened LegacyMetrics
  import Digits

  /** The trace and span id fields every event of this middleware carries. */
  function SpanFields(span: SpanContext): (f: Fields)
    ensures f.Keys == {"trace_id", "span_id"}
    ensures f["trace_id"].Str? && |f["trace_id"].s| >= 32 && Digits.FromDigits(f["trace_id"].s, 16) == span.traceId
    ensures f["span_id"].Str? && |f["span_id"].s| >= 16 && Digits.FromDigits(f["span_id"].s, 16) == span.spanId
    ensures f["trace_id"] == Str(Digits.TraceIdHex(span.traceId)) && f["span_id"] == Str(Digits.SpanIdHex(span.spanId))
  {
    map["trace_id" := Str(Digits.TraceIdHex(span.traceId)), "span_id" := Str(Digits.SpanIdHex(span.spanId))]
  }

  /** The info event "Request processed". */
  function ProcessedEvent(request: Request, response: Response, duration: real, span: SpanContext): (e: Event)
    ensures e.level == Info && e.name == "Request processed"
  {
    Event(Info, "Request processed",
          Merge(map["method" := Str(request.httpMethod), "path" := Str(request.path),
                    "status_code" := Int(response.statusCode), "duration" := Seconds(duration)],
                SpanFields(span)))
  }

  /** The error event "Request failed", with `error = str(e)`. */
  function FailedEvent(request: Request, exception: Exception, span: SpanContext): (e: Event)
    ensures e.level == Error && e.name == "Request failed"
  {
    Event(Error, "Request failed",
          Merge(map["method" := Str(request.httpMethod), "path" := Str(request.path),
                    "error" := Str(exception.message)],
                SpanFields(span)))
  }

  /** "Request processed" carries method, path, status, duration and the span's hex ids. */
  lemma ProcessedEventFields(request: Request, response: Response, duration: real, span: SpanContext)
    ensures var e := ProcessedEvent(request, response, duration, span);
      && e.fields.Keys == {"method", "path", "status_code", "duration", "trace_id", "span_id"}
      && e.fields["method"] == Str(request.httpMethod) && e.fields["path"] == Str(request.path)
      && e.fields["status_code"] == Int(response.statusCode) && e.fields["duration"] == Seconds(duration)
      && e.fields["trace_id"] == SpanFields(span)["trace_id"] && e.fields["span_id"] == SpanFields(span)["span_id"]
  {
  }

  /** "Request failed" carries method, path, `str(e)` and the span's hex ids. */
  lemma FailedEventFields(request: Request, exception: Exception, span: SpanContext)
    ensures var e := FailedEvent(request, exception, span);
      && e.fields.Keys == {"method", "path", "error", "trace_id", "span_id"}
      && e.fields["method"] == Str(request.httpMethod) && e.fields["path"] == Str(request.path)
      && e.fields["error"] == Str(exception.message)
      && e.fields["trace_id"] == SpanFields(span)["trace_id"] && e.fields["span_id"] == SpanFields(span)["span_id"]
  {
  }

  class ObservabilityMiddleware {
    const appName: string
    const logger: EventLog
    const registry: Registry
    const excludedEndpoints: seq<string>

    /** `logger or setup_logger(app_name)` and `excluded_endpoints or []`. */
    constructor (appName: string, logger: EventLog?, excludedEndpoints: Option<seq<string>>, registry: Registry)
      ensures this.appName == appName && this.registry == registry
      ensures logger != null ==> this.logger == logger
      ensures logger == null ==> fresh(this.logger) && this.logger.events == []
      ensures this.excludedEndpoints == if excludedEndpoints.Some? then excludedEndpoints.value else []
    {
      this.appName := appName;
      this.registry := registry;
      this.excludedEndpoints := if excludedEndpoints.Some? then excludedEndpoints.value else [];
      if logger != null {
        this.logger := logger;
      } else {
        this.logger := new EventLog();
      }
    }

    /**
     * `dispatch(request, call_next)`. `span` is the server span the
     * middleware starts, `duration` the elapsed time the log line reports.
     */
    method Dispatch(request: Request, handler: Outcome, span: SpanContext, duration: real)
      returns (r: Outcome, steps: seq<Step>)
      modifies logger, registry
      ensures r == handler
      ensures request.path in excludedEndpoints ==>
        && steps == [CallNext(request)]
        && logger.events == old(logger.events)
        && registry.requestCount == old(registry.requestCount)
        && registry.requestLatency == old(registry.requestLatency)
      ensures request.path !in excludedEndpoints && handler.Ok? ==>
        && steps == [CallNext(request)] + [IncCount(CountKey(appName, request, handler.response.statusCode)),
                                           ObserveLatency(LatencyKey(appName, request)),
                                           Emit(ProcessedEvent(request, handler.response, duration, span))]
        && registry.requestCount == Inc(old(registry.requestCount), CountKey(appName, request, handler.response.statusCode))
        && registry.requestLatency == Inc(old(registry.requestLatency), LatencyKey(appName, request))
        && logger.events == old(logger.events) + [ProcessedEvent(request, handler.response, duration, span)]
      ensures request.path !in excludedEndpoints && handler.Err? ==>
        && steps == [CallNext(request)] + [IncCount(CountKey(appName, request, 500)),
                                           Emit(FailedEvent(request, handler.exception, span))]
        && registry.requestCount == Inc(old(registry.requestCount), CountKey(appName, request, 500))
        && registry.requestLatency == old(registry.requestLatency)
        && logger.events == old(logger.events) + [FailedEvent(request, handler.exception, span)]
    {
      steps := [CallNext(request)];
      r := handler;
      if request.path in excludedEndpoints {
        return;
      }
      var more;
      if handler.Ok? {
        more := Processed(request, handler.response, span, duration);
      } else {
        more := Failed(request, handler.exception, span);
      }
      steps := steps + more;
    }

    /** The `try` block after a response: count, latency, then "Request processed". */
    method Processed(request: Request, response: Response, span: SpanContext, duration: real) returns (steps: seq<Step>)
      modifies logger, registry
      ensures steps == [IncCount(CountKey(appName, request, response.statusCode)),
                        ObserveLatency(LatencyKey(appName, request)),
                        Emit(ProcessedEvent(request, response, duration, span))]
      ensures registry.requestCount == Inc(old(registry.requestCount), CountKey(appName, request, response.statusCode))
      ensures registry.requestLatency == Inc(old(registry.requestLatency), LatencyKey(appName, request))
      ensures logger.events == old(logger.events) + [ProcessedEvent(request, response, duration, span)]
    {
      var count := CountKey(appName, request, response.statusCode);
      registry.requestCount := Inc(registry.requestCount, count);
      var latency := LatencyKey(appName, request);
      registry.requestLatency := Inc(registry.requestLatency, latency);
      var e := ProcessedEvent(request, response, duration, span);
      logger.Emit(e);
      steps := [IncCount(count), ObserveLatency(latency), Emit(e)];
    }

    /** The `except` block: a count with status 500, then "Request failed". */
    method Failed(request: Request, exception: Exception, span: SpanContext) returns (steps: seq<Step>)
      modifies logger, registry
      ensures steps == [IncCount(CountKey(appName, request, 500)), Emit(FailedEvent(request, exception, span))]
      ensures registry.requestCount == Inc(old(registry.requestCount), CountKey(appName, request, 500))
      ensures registry.requestLatency == old(registry.requestLatency)
      ensures logger.events == old(logger.events) + [FailedEvent(request, exception, span)]
    {
      var count := CountKey(appName, request, 500);
      registry.requestCount := Inc(registry.requestCount, count);
      var e := FailedEvent(request, exception, span);
      logger.Emit(e);
      steps := [IncCount(count), Emit(e)];
    }
  }

  /** With the default (absent) exclusion list, `/health` is instrumented like any path. */
  method DefaultListExcludesNothing() returns (counts: nat, events: nat)
    ensures counts == 1 && events == 1
  {
    var registry := new Registry();
    var middleware := new ObservabilityMiddleware(DefaultAppName, null, None, registry);
    var request := Request("GET", "http://testserver/health", "/health", None);
    var r, steps := middleware.Dispatch(request, Ok(Response(200, "healthy")), SpanContext(1, 2), 0.01);
    counts := Count(registry.requestCount, CountKey(DefaultAppName, request, 200));
    events := |middleware.logger.events|;
  }
}
