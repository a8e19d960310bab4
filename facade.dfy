/**
 * The composer of the current package tree: builds the logger, the metrics
 * recorder and the tracer provider according to three feature flags, and
 * registers the middleware and the `/metrics` route on the application.
 */
module Facade {
  import opened Http
  import opened Events
  import opened Logger
  import opened Metrics
  import opened Middleware

  /** What `setup_telemetry(service_name, otlp_endpoint)` configures. */
  datatype TracerProvider = TracerProvider(serviceName: string, otlpEndpoint: string)

  const DefaultOtlpEndpoint := "http://localhost:4317"
  const MetricsPath := "/metrics"

  /** The host application, as far as the composer changes it. */
  class App {
    var middleware: seq<ObservabilityMiddleware>
    /** Paths of the routes added with `add_route`. */
    var routes: seq<string>
    /** The tracer providers the application was instrumented with. */
    var instrumentedWith: seq<TracerProvider>

    constructor ()
      ensures middleware == [] && routes == [] && instrumentedWith == []
    {
      middleware, routes, instrumentedWith := [], [], [];
    }
  }

  class Observability {
    const app: App
    const serviceName: string
    const enableStructlog: bool
    const enablePrometheus: bool
    const enableOpentelemetry: bool
    const logger: ObservabilityLogger?
    const metrics: ObservabilityMetrics?
    const tracerProvider: Option<TracerProvider>

    /** A collaborator exists exactly when its feature is on, and serves this service. */
    ghost predicate Valid()
      reads this, metrics
    {
      && (logger != null <==> enableStructlog)
      && (metrics != null <==> enablePrometheus)
      && (tracerProvider.Some? <==> enableOpentelemetry)
      && (logger != null ==> logger.serviceName == serviceName)
      && (metrics != null ==> metrics.serviceName == serviceName && metrics.Valid())
    }

    /** `FastAPIObservability.__init__`. */
    constructor (app: App, serviceName: string, otlpEndpoint: string,
                 enableStructlog: bool, enablePrometheus: bool, enableOpentelemetry: bool)
      modifies app
      ensures this.app == app && this.serviceName == serviceName
      ensures this.enableStructlog == enableStructlog && this.enablePrometheus == enablePrometheus
      ensures this.enableOpentelemetry == enableOpentelemetry
      ensures Valid()
      ensures logger != null ==> fresh(logger) && logger.events == []
      ensures metrics != null ==> fresh(metrics) && metrics.requestsTotal == map[]
                                  && metrics.requestDurationSeconds == map[] && metrics.exceptionsTotal == map[]
      ensures tracerProvider == if enableOpentelemetry then Some(TracerProvider(serviceName, otlpEndpoint)) else None
      ensures app.instrumentedWith == old(app.instrumentedWith) + if enableOpentelemetry then [tracerProvider.value] else []
      // the middleware is added once when logging or metrics is on, with exactly these collaborators
      ensures !(enableStructlog || enablePrometheus) ==> app.middleware == old(app.middleware)
      ensures enableStructlog || enablePrometheus ==>
        && |app.middleware| == |old(app.middleware)| + 1
        && app.middleware[..|old(app.middleware)|] == old(app.middleware)
        && fresh(app.middleware[|old(app.middleware)|])
        && app.middleware[|old(app.middleware)|].serviceName == serviceName
        && app.middleware[|old(app.middleware)|].logger == logger
        && app.middleware[|old(app.middleware)|].metrics == metrics
      ensures app.routes == old(app.routes) + if enablePrometheus then [MetricsPath] else []
    {
      this.app := app;
      this.serviceName := serviceName;
      this.enableStructlog := enableStructlog;
      this.enablePrometheus := enablePrometheus;
      this.enableOpentelemetry := enableOpentelemetry;
      var lg: ObservabilityLogger? := null;
      if enableStructlog {
        lg := new ObservabilityLogger(serviceName);
      }
      var mt: ObservabilityMetrics? := null;
      if enablePrometheus {
        mt := new ObservabilityMetrics(serviceName);
      }
      this.logger := lg;
      this.metrics := mt;
      this.tracerProvider := if enableOpentelemetry then Some(TracerProvider(serviceName, otlpEndpoint)) else None;
      new;
      if enableOpentelemetry {
        app.instrumentedWith := app.instrumentedWith + [tracerProvider.value];
      }
      if enableStructlog || enablePrometheus {
        var m := new ObservabilityMiddleware(serviceName, logger, metrics);
        app.middleware := app.middleware + [m];
      }
      if enablePrometheus {
        app.routes := app.routes + [MetricsPath];
      }
    }

    /** `get_logger`: a RuntimeError when structlog is off, the bound context otherwise. */
    method GetLogger(span: Option<SpanContext>) returns (r: Result<Fields>)
      requires Valid()
      ensures r.Failure? <==> !enableStructlog
      ensures r.Failure? ==> r.error == Exception("RuntimeError", "Structlog is not enabled")
      ensures r.Success? ==> (r.value.Keys == if span.Some? then {"trace_id", "span_id", "service"} else {"service"})
      ensures r.Success? ==> r.value["service"] == Str(serviceName)
      ensures r.Success? ==> logger != null && r.value == logger.BoundContext(span)
    {
      if !enableStructlog {
        return Failure(Exception("RuntimeError", "Structlog is not enabled"));
      }
      r := Success(logger.BoundContext(span));
    }
  }

  /**
   * The decision table of the constructor on a fresh application: which
   * collaborators exist, whether the middleware is added and can dispatch,
   * whether `/metrics` is registered and whether `get_logger` raises.
   */
  method Wiring(enableStructlog: bool, enablePrometheus: bool, enableOpentelemetry: bool)
    returns (hasLogger: bool, hasMetrics: bool, hasTracer: bool, middlewareAdded: nat,
             dispatchReady: bool, metricsRouted: bool, getLoggerRaises: bool)
    ensures hasLogger == enableStructlog && hasMetrics == enablePrometheus && hasTracer == enableOpentelemetry
    ensures middlewareAdded == if enableStructlog || enablePrometheus then 1 else 0
    ensures dispatchReady <==> enableStructlog && enablePrometheus
    ensures metricsRouted == enablePrometheus
    ensures getLoggerRaises == !enableStructlog
  {
    var app := new App();
    var o := new Observability(app, "test-service", DefaultOtlpEndpoint,
                               enableStructlog, enablePrometheus, enableOpentelemetry);
    hasLogger, hasMetrics, hasTracer := o.logger != null, o.metrics != null, o.tracerProvider.Some?;
    middlewareAdded := |app.middleware|;
    dispatchReady := |app.middleware| == 1 && app.middleware[0].Ready();
    metricsRouted := MetricsPath in app.routes;
    var r := o.GetLogger(None);
    getLoggerRaises := r.Failure?;
  }
}
