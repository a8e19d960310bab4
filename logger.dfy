/**
 * The structured logger of the current package tree: a bound context built
 * from the service name and the current span, and the events that
 * `log_request` and `log_error` emit.
 */
module Logger {
  import opened Http
  import opened Events
  import Digits

  /**
   * What a caller passes as `error`: an exception object (always truthy in
   * Python) or a plain string (truthy when non-empty), with `str(error)`.
   */
  datatype ErrorArg = Raised(exception: Exception) | Text(text: string) {
    predicate Truthy()
    {
      Raised? || text != ""
    }

    function Str(): string
    {
      if Raised? then exception.message else text
    }
  }

  /** `if error:` in `log_request`. */
  predicate Failed(error: Option<ErrorArg>)
  {
    error.Some? && error.value.Truthy()
  }

  /** The `log_data` dictionary of `log_request`, after the error is added. */
  function RequestData(request: Request, response: Option<Response>, error: Option<ErrorArg>): (d: Fields)
    ensures d.Keys == {"method", "url", "client_host", "status_code"} + (if Failed(error) then {"error"} else {})
    ensures d["method"] == Str(request.httpMethod) && d["url"] == Str(request.url)
    ensures d["status_code"] == if response.Some? then Int(response.value.statusCode) else Null
    ensures d["client_host"] == if request.client.Some? then Str(request.client.value) else Null
    ensures Failed(error) ==> d["error"] == Str(error.value.Str())
  {
    var logData := map[
      "method" := Str(request.httpMethod),
      "url" := Str(request.url),
      "client_host" := if request.client.Some? then Str(request.client.value) else Null,
      "status_code" := if response.Some? then Int(response.value.statusCode) else Null];
    if Failed(error) then logData["error" := Str(error.value.Str())] else logData
  }

  class ObservabilityLogger {
    const serviceName: string
    /** The events written to the output sink, oldest first. */
    var events: seq<Event>

    constructor (serviceName: string)
      ensures this.serviceName == serviceName && events == []
    {
      this.serviceName := serviceName;
      events := [];
    }

    /**
     * `get_logger`: the context bound onto the logger. It always holds the
     * service name; with a current span it also holds the trace id as at
     * least 32 and the span id as at least 16 lowercase hex digits.
     */
    function BoundContext(span: Option<SpanContext>): (ctx: Fields)
      ensures ctx.Keys == if span.Some? then {"trace_id", "span_id", "service"} else {"service"}
      ensures ctx["service"] == Str(serviceName)
      ensures span.Some? ==> ctx["trace_id"].Str? && |ctx["trace_id"].s| >= 32
      ensures span.Some? ==> Digits.FromDigits(ctx["trace_id"].s, 16) == span.value.traceId
      ensures span.Some? ==> ctx["span_id"].Str? && |ctx["span_id"].s| >= 16
      ensures span.Some? ==> Digits.FromDigits(ctx["span_id"].s, 16) == span.value.spanId
      ensures span.Some? ==> ctx["trace_id"] == Str(Digits.TraceIdHex(span.value.traceId))
      ensures span.Some? ==> ctx["span_id"] == Str(Digits.SpanIdHex(span.value.spanId))
    {
      match span
      case Some(ctx) =>
        map["trace_id" := Str(Digits.TraceIdHex(ctx.traceId)),
            "span_id" := Str(Digits.SpanIdHex(ctx.spanId)),
            "service" := Str(serviceName)]
      case None => map["service" := Str(serviceName)]
    }

    /** The event `log_request(request, response, error)` emits. */
    function RequestEvent(request: Request, response: Option<Response>, error: Option<ErrorArg>, span: Option<SpanContext>): (e: Event)
      ensures e.level == Error <==> Failed(error)
      ensures e.name == if Failed(error) then "request_failed" else "request_completed"
      ensures e.fields.Keys == BoundContext(span).Keys + {"method", "url", "client_host", "status_code"}
                               + (if Failed(error) then {"error"} else {})
      ensures e.fields["method"] == Str(request.httpMethod) && e.fields["url"] == Str(request.url)
      ensures e.fields["status_code"].Null? <==> response.None?
      ensures response.Some? ==> e.fields["status_code"] == Int(response.value.statusCode)
      ensures e.fields["client_host"].Null? <==> request.client.None?
      ensures request.client.Some? ==> e.fields["client_host"] == Str(request.client.value)
      ensures Failed(error) ==> e.fields["error"] == Str(error.value.Str())
      ensures e.fields["service"] == Str(serviceName)
      // the bound trace and span ids, which `log_data` never overrides
      ensures forall k :: k in BoundContext(span) && k !in RequestData(request, response, error) ==>
        e.fields[k] == BoundContext(span)[k]
    {
      var data := RequestData(request, response, error);
      var fields := Merge(BoundContext(span), data);
      assert fields["service"] == Str(serviceName);
      if Failed(error) then Event(Error, "request_failed", fields)
      else Event(Info, "request_completed", fields)
    }

    /**
     * The event `log_error(error, context)` emits; an absent context is the
     * empty map. Keys of the context win over `error` and the bound context.
     */
    function ErrorEvent(error: ErrorArg, context: Fields, span: Option<SpanContext>): (e: Event)
      ensures e.level == Error && e.name == "error_occurred"
      ensures e.fields.Keys == BoundContext(span).Keys + {"error"} + context.Keys
      ensures forall k :: k in context ==> e.fields[k] == context[k]
      ensures "error" !in context ==> e.fields["error"] == Str(error.Str())
      ensures "service" !in context ==> e.fields["service"] == Str(serviceName)
      ensures forall k :: k in BoundContext(span) && k != "error" && k !in context ==>
        e.fields[k] == BoundContext(span)[k]
    {
      var logData := Merge(map["error" := Str(error.Str())], context);
      Event(Error, "error_occurred", Merge(BoundContext(span), logData))
    }

    /**
     * `log_request`. `sinkFault` is an exception raised while writing the
     * event to the output sink, if any: then nothing is written and the
     * exception is passed back to the caller.
     */
    method LogRequest(request: Request, response: Option<Response>, error: Option<ErrorArg>, span: Option<SpanContext>,
                      sinkFault: Option<Exception>)
      returns (raised: Option<Exception>)
      modifies this
      ensures raised == sinkFault
      ensures events == old(events) + if sinkFault.None? then [RequestEvent(request, response, error, span)] else []
    {
      raised := sinkFault;
      if sinkFault.None? {
        events := events + [RequestEvent(request, response, error, span)];
      }
    }

    /** `log_error`: exactly one `error_occurred` event. */
    method LogError(error: ErrorArg, context: Fields, span: Option<SpanContext>)
      modifies this
      ensures events == old(events) + [ErrorEvent(error, context, span)]
    {
      events := events + [ErrorEvent(error, context, span)];
    }
  }

  /** `log_request` with and without an error, as the logger test calls it. */
  method LogRequestTwice() returns (levels: seq<Level>, names: seq<string>)
    ensures levels == [Info, Error] && names == ["request_completed", "request_failed"]
  {
    var logger := new ObservabilityLogger("test-service");
    var request := Request("GET", "http://test.com", "/", Some("127.0.0.1"));
    var response := Response(200, "");
    var r := logger.LogRequest(request, Some(response), None, None, None);
    r := logger.LogRequest(request, Some(response), Some(Text("Test error")), None, None);
    levels := [logger.events[0].level, logger.events[1].level];
    names := [logger.events[0].name, logger.events[1].name];
  }
}
