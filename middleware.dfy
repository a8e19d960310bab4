/**
 * The per-request dispatch of the current package tree's middleware: call the
 * handler once, then either log the request and record it, or, when the
 * handler or one of those two collaborator calls raises, log the error,
 * record the exception and re-raise it.
 */
module Middleware {
  import opened Http
  import opened Events
  import opened Counters
  import opened Logger
  import opened Metrics

  /**
   * An exception raised by a collaborator on the success path: by
   * `log_request` (while writing its event) or by `record_request` (after
   * its count increment, while computing the exemplar or observing).
   */
  datatype Fault = NoFault | LogRequestRaises(e: Exception) | RecordRequestRaises(e: Exception) {
    function LogRequestFault(): Option<Exception>
    {
      if LogRequestRaises? then Some(e) else None
    }

    function RecordRequestFault(): Option<Exception>
    {
      if RecordRequestRaises? then Some(e) else None
    }
  }

  /** One call the middleware makes, in the order it makes them. */
  datatype Call =
    | CallNext(request: Request)
    | LogRequestCall(request: Request, response: Response)
    | RecordRequestCall(httpMethod: string, endpoint: string, status: int, duration: real)
    | LogErrorCall(error: Exception, context: Fields)
    | RecordExceptionCall(httpMethod: string, endpoint: string, exceptionType: string)

  /** The exception that reaches the `except` block, if any. */
  function Caught(handler: Outcome, fault: Fault): (e: Option<Exception>)
    ensures handler.Err? ==> e == Some(handler.exception)
    ensures handler.Ok? ==> (e.None? <==> fault.NoFault?)
    ensures handler.Ok? && !fault.NoFault? ==> e == Some(fault.e)
  {
    match handler
    case Err(exc) => Some(exc)
    case Ok(_) => if fault.NoFault? then None else Some(fault.e)
  }

  /** The context `dispatch` passes to `log_error`. */
  function ErrorContext(request: Request, duration: real): (ctx: Fields)
    ensures ctx.Keys == {"method", "url", "duration"}
    ensures ctx["method"] == Str(request.httpMethod) && ctx["url"] == Str(request.url)
    ensures ctx["duration"] == Seconds(duration)
  {
    map["method" := Str(request.httpMethod), "url" := Str(request.url), "duration" := Seconds(duration)]
  }

  /** The calls `dispatch` makes for a handler outcome and a collaborator fault. */
  function Calls(request: Request, handler: Outcome, fault: Fault, okDuration: real, errDuration: real): (calls: seq<Call>)
    ensures |calls| >= 3 && calls[0] == CallNext(request)
    ensures forall i :: 0 < i < |calls| ==> !calls[i].CallNext?
    ensures |calls| == (if handler.Err? || fault.NoFault? then 3 else if fault.LogRequestRaises? then 4 else 5)
    ensures handler.Ok? ==> calls[1] == LogRequestCall(request, handler.response)
    ensures handler.Ok? && !fault.LogRequestRaises? ==>
      calls[2] == RecordRequestCall(request.httpMethod, request.path, handler.response.statusCode, okDuration)
    ensures Caught(handler, fault).None? <==> !calls[|calls| - 1].RecordExceptionCall?
    ensures Caught(handler, fault).Some? ==>
      && calls[|calls| - 2] == LogErrorCall(Caught(handler, fault).value, ErrorContext(request, errDuration))
      && calls[|calls| - 1] == RecordExceptionCall(request.httpMethod, request.path, Caught(handler, fault).value.typeName)
  {
    [CallNext(request)] + SuccessPathCalls(request, handler, fault, okDuration)
      + FailurePathCalls(request, handler, fault, errDuration)
  }

  /** The calls inside the `try` after `call_next`, up to the one that raises. */
  function SuccessPathCalls(request: Request, handler: Outcome, fault: Fault, okDuration: real): seq<Call>
  {
    if handler.Err? then []
    else if fault.LogRequestRaises? then [LogRequestCall(request, handler.response)]
    else [LogRequestCall(request, handler.response),
          RecordRequestCall(request.httpMethod, request.path, handler.response.statusCode, okDuration)]
  }

  /** The calls of the `except` block. */
  function FailurePathCalls(request: Request, handler: Outcome, fault: Fault, errDuration: real): seq<Call>
  {
    match Caught(handler, fault)
    case None => []
    case Some(e) =>
      [LogErrorCall(e, ErrorContext(request, errDuration)),
       RecordExceptionCall(request.httpMethod, request.path, e.typeName)]
  }

  class ObservabilityMiddleware {
    const serviceName: string
    const logger: ObservabilityLogger?
    const metrics: ObservabilityMetrics?

    constructor (serviceName: string, logger: ObservabilityLogger?, metrics: ObservabilityMetrics?)
      ensures this.serviceName == serviceName && this.logger == logger && this.metrics == metrics
    {
      this.serviceName, this.logger, this.metrics := serviceName, logger, metrics;
    }

    /** `dispatch` calls both collaborators unconditionally, so both must exist. */
    predicate Ready()
    {
      logger != null && metrics != null
    }

    /**
     * `dispatch(request, call_next)`. `handler` is what `call_next` does,
     * `fault` what the success-path collaborators raise, `span` the current
     * span, and `okDuration` / `errDuration` the elapsed times read on the
     * success and the failure path.
     */
    method Dispatch(request: Request, handler: Outcome, fault: Fault, span: Option<SpanContext>,
                    okDuration: real, errDuration: real)
      returns (r: Outcome, calls: seq<Call>)
      requires Ready() && metrics.Valid()
      modifies logger, metrics
      ensures metrics.Valid()
      ensures calls == Calls(request, handler, fault, okDuration, errDuration)
      // the handler's response comes back unchanged, or the caught exception is re-raised
      ensures r == if Caught(handler, fault).Some? then Err(Caught(handler, fault).value) else handler
      ensures logger.events == old(logger.events)
        + (if handler.Ok? && !fault.LogRequestRaises?
           then [logger.RequestEvent(request, Some(handler.response), None, span)] else [])
        + (if Caught(handler, fault).Some?
           then [logger.ErrorEvent(Raised(Caught(handler, fault).value), ErrorContext(request, errDuration), span)]
           else [])
      ensures metrics.requestsTotal ==
        if handler.Ok? && !fault.LogRequestRaises?
        then Inc(old(metrics.requestsTotal), metrics.RequestKey(request.httpMethod, request.path, handler.response.statusCode))
        else old(metrics.requestsTotal)
      ensures metrics.requestDurationSeconds ==
        if Caught(handler, fault).None?
        then Inc(old(metrics.requestDurationSeconds), metrics.DurationKey(request.httpMethod, request.path))
        else old(metrics.requestDurationSeconds)
      ensures metrics.exceptionsTotal ==
        if Caught(handler, fault).Some?
        then Inc(old(metrics.exceptionsTotal), metrics.ExceptionKey(request.httpMethod, request.path, Caught(handler, fault).value.typeName))
        else old(metrics.exceptionsTotal)
    {
      var tried, caught := TryBlock(request, handler, fault, span, okDuration);
      if caught.None? {
        r, calls := handler, [CallNext(request)] + tried;
        return;
      }
      ghost var logged := logger.events;
      // the `except` block: log, record, re-raise
      var e := caught.value;
      var context := ErrorContext(request, errDuration);
      logger.LogError(Raised(e), context, span);
      assert logger.events == logged + [logger.ErrorEvent(Raised(e), context, span)];
      metrics.RecordException(request.httpMethod, request.path, e.typeName);
      r := Err(e);
      calls := [CallNext(request)] + tried
        + [LogErrorCall(e, context), RecordExceptionCall(request.httpMethod, request.path, e.typeName)];
    }

    /**
     * The `try` block after `call_next`: `log_request`, then `record_request`,
     * stopping at the first one that raises. `caught` is what reaches `except`.
     */
    method TryBlock(request: Request, handler: Outcome, fault: Fault, span: Option<SpanContext>, okDuration: real)
      returns (tried: seq<Call>, caught: Option<Exception>)
      requires Ready() && metrics.Valid()
      modifies logger, metrics
      ensures metrics.Valid()
      ensures tried == SuccessPathCalls(request, handler, fault, okDuration)
      ensures caught == Caught(handler, fault)
      ensures logger.events == old(logger.events)
        + (if handler.Ok? && !fault.LogRequestRaises?
           then [logger.RequestEvent(request, Some(handler.response), None, span)] else [])
      ensures metrics.requestsTotal ==
        if handler.Ok? && !fault.LogRequestRaises?
        then Inc(old(metrics.requestsTotal), metrics.RequestKey(request.httpMethod, request.path, handler.response.statusCode))
        else old(metrics.requestsTotal)
      ensures metrics.requestDurationSeconds ==
        if caught.None?
        then Inc(old(metrics.requestDurationSeconds), metrics.DurationKey(request.httpMethod, request.path))
        else old(metrics.requestDurationSeconds)
      ensures metrics.exceptionsTotal == old(metrics.exceptionsTotal)
    {
      tried, caught := [], None;
      match handler {
        case Ok(response) =>
          tried := [LogRequestCall(request, response)];
          caught := logger.LogRequest(request, Some(response), None, span, fault.LogRequestFault());
          if caught.None? {
            tried := tried + [RecordRequestCall(request.httpMethod, request.path, response.statusCode, okDuration)];
            caught := metrics.RecordRequest(request.httpMethod, request.path, response.statusCode, okDuration,
                                            fault.RecordRequestFault());
          }
        case Err(e) =>
          caught := Some(e);
      }
    }
  }

  /** The middleware test: one successful GET /test on fresh collaborators. */
  method SuccessfulRequest() returns (r: Outcome, requests: nat, exceptions: nat, events: nat)
    ensures r == Ok(Response(200, "ok")) && requests == 1 && exceptions == 0 && events == 1
  {
    var logger := new ObservabilityLogger("test-service");
    var metrics := new ObservabilityMetrics("test-service");
    var middleware := new ObservabilityMiddleware("test-service", logger, metrics);
    var request := Request("GET", "http://testserver/test", "/test", Some("127.0.0.1"));
    var calls;
    r, calls := middleware.Dispatch(request, Ok(Response(200, "ok")), NoFault, None, 0.1, 0.1);
    Digits.DecimalExamples();
    assert metrics.RequestKey("GET", "/test", 200) == RequestLabels("GET", "/test", "200", "test-service");
    requests := Count(metrics.requestsTotal, RequestLabels("GET", "/test", "200", "test-service"));
    exceptions := |metrics.exceptionsTotal|;
    events := |logger.events|;
  }

  /** The middleware test: a handler raising ValueError on fresh collaborators. */
  method FailedRequest() returns (r: Outcome, exceptions: nat, requests: nat, level: Level)
    ensures r == Err(Exception("ValueError", "Test error")) && exceptions == 1 && requests == 0 && level == Error
  {
    var logger := new ObservabilityLogger("test-service");
    var metrics := new ObservabilityMetrics("test-service");
    var middleware := new ObservabilityMiddleware("test-service", logger, metrics);
    var request := Request("GET", "http://testserver/test", "/test", Some("127.0.0.1"));
    var calls;
    r, calls := middleware.Dispatch(request, Err(Exception("ValueError", "Test error")), NoFault, None, 0.1, 0.1);
    assert metrics.ExceptionKey("GET", "/test", "ValueError") == ExceptionLabels("GET", "/test", "ValueError", "test-service");
    exceptions := Count(metrics.exceptionsTotal, ExceptionLabels("GET", "/test", "ValueError", "test-service"));
    requests := |metrics.requestsTotal|;
    level := logger.events[0].level;
  }

  /**
   * `record_request` raising after its count increment, from `get_exemplar`
   * or `observe`: the request stays counted, no duration is observed, and the
   * exception is recorded and re-raised.
   */
  method RaiseAfterCount() returns (r: Outcome, requests: nat, observations: nat, exceptions: nat)
    ensures r == Err(Exception("RuntimeError", "observe failed")) && requests == 1
    ensures observations == 0 && exceptions == 1
  {
    var logger := new ObservabilityLogger("test-service");
    var metrics := new ObservabilityMetrics("test-service");
    var middleware := new ObservabilityMiddleware("test-service", logger, metrics);
    var request := Request("GET", "http://testserver/test", "/test", Some("127.0.0.1"));
    var error := Exception("RuntimeError", "observe failed");
    var calls;
    r, calls := middleware.Dispatch(request, Ok(Response(200, "ok")), RecordRequestRaises(error), None, 0.1, 0.1);
    assert Caught(Ok(Response(200, "ok")), RecordRequestRaises(error)) == Some(error);
    Digits.DecimalExamples();
    assert metrics.RequestKey("GET", "/test", 200) == RequestLabels("GET", "/test", "200", "test-service");
    assert metrics.ExceptionKey("GET", "/test", "RuntimeError") == ExceptionLabels("GET", "/test", "RuntimeError", "test-service");
    requests := Count(metrics.requestsTotal, RequestLabels("GET", "/test", "200", "test-service"));
    observations := |metrics.requestDurationSeconds|;
    exceptions := Count(metrics.exceptionsTotal, ExceptionLabels("GET", "/test", "RuntimeError", "test-service"));
  }
}
