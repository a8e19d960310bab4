/**
 * The metrics recorder of the current package tree: three Prometheus series
 * keyed by label tuples that always carry the recorder's service name.
 */
module Metrics {
  import opened Http
  import opened Counters
  import Digits

  /** Labels of `http_requests_total`: method, endpoint, status (as a string), service. */
  datatype RequestLabels = RequestLabels(httpMethod: string, endpoint: string, status: string, service: string)

  /** Labels of `http_request_duration_seconds`: method, endpoint, service (no status). */
  datatype DurationLabels = DurationLabels(httpMethod: string, endpoint: string, service: string)

  /** Labels of `http_exceptions_total`: method, endpoint, exception type, service. */
  datatype ExceptionLabels = ExceptionLabels(httpMethod: string, endpoint: string, exceptionType: string, service: string)

  /**
   * `get_exemplar`: no exemplar without a current span; otherwise a single
   * `trace_id` entry holding the id as at least 32 lowercase hex digits.
   */
  function Exemplar(span: Option<SpanContext>): (ex: map<string, string>)
    ensures span.None? ==> ex == map[]
    ensures span.Some? ==> ex.Keys == {"trace_id"}
    ensures span.Some? ==> |ex["trace_id"]| >= 32
    ensures span.Some? ==> (|ex["trace_id"]| == 32 <==> span.value.traceId < Digits.Pow(16, 32))
    ensures span.Some? ==> forall i :: 0 <= i < |ex["trace_id"]| ==> Digits.IsLowerHexDigit(ex["trace_id"][i])
    ensures span.Some? ==> Digits.FromDigits(ex["trace_id"], 16) == span.value.traceId
  {
    match span
    case Some(ctx) => map["trace_id" := Digits.TraceIdHex(ctx.traceId)]
    case None => map[]
  }

  class ObservabilityMetrics {
    const serviceName: string
    var requestsTotal: map<RequestLabels, nat>
    /** Number of observations per label tuple; the observed durations are not kept. */
    var requestDurationSeconds: map<DurationLabels, nat>
    var exceptionsTotal: map<ExceptionLabels, nat>

    /** Every series this recorder touched is labelled with its own service name. */
    ghost predicate Valid()
      reads this
    {
      && (forall k :: k in requestsTotal ==> k.service == serviceName)
      && (forall k :: k in requestDurationSeconds ==> k.service == serviceName)
      && (forall k :: k in exceptionsTotal ==> k.service == serviceName)
    }

    constructor (serviceName: string)
      ensures this.serviceName == serviceName
      ensures requestsTotal == map[] && requestDurationSeconds == map[] && exceptionsTotal == map[]
      ensures Valid()
    {
      this.serviceName := serviceName;
      requestsTotal, requestDurationSeconds, exceptionsTotal := map[], map[], map[];
    }

    function RequestKey(httpMethod: string, endpoint: string, status: int): (k: RequestLabels)
      ensures k.httpMethod == httpMethod && k.endpoint == endpoint
      ensures k.service == serviceName && Digits.ParseDecimal(k.status) == status
    {
      Digits.DecimalRoundTrip(status);
      RequestLabels(httpMethod, endpoint, Digits.DecimalString(status), serviceName)
    }

    function DurationKey(httpMethod: string, endpoint: string): (k: DurationLabels)
      ensures k.httpMethod == httpMethod && k.endpoint == endpoint && k.service == serviceName
    {
      DurationLabels(httpMethod, endpoint, serviceName)
    }

    function ExceptionKey(httpMethod: string, endpoint: string, exceptionType: string): (k: ExceptionLabels)
      ensures k.httpMethod == httpMethod && k.endpoint == endpoint
      ensures k.exceptionType == exceptionType && k.service == serviceName
    {
      ExceptionLabels(httpMethod, endpoint, exceptionType, serviceName)
    }

    /**
     * `record_request`: one increment of `http_requests_total`, then one
     * observation of the duration histogram with the exemplar. `fault` is an
     * exception raised while the exemplar is computed or the duration
     * observed, if any: the count has then already gone up, the histogram
     * is left as it was, and the exception is passed back to the caller.
     */
    method RecordRequest(httpMethod: string, endpoint: string, status: int, duration: real, fault: Option<Exception>)
      returns (raised: Option<Exception>)
      requires Valid()
      modifies this
      ensures Valid() && raised == fault
      ensures requestsTotal == Inc(old(requestsTotal), RequestKey(httpMethod, endpoint, status))
      ensures requestDurationSeconds == if fault.None? then Inc(old(requestDurationSeconds), DurationKey(httpMethod, endpoint)) else old(requestDurationSeconds)
      ensures exceptionsTotal == old(exceptionsTotal)
      ensures NoneDecreased(old(requestsTotal), requestsTotal) && NoneDecreased(old(requestDurationSeconds), requestDurationSeconds)
    {
      raised := fault;
      requestsTotal := Inc(requestsTotal, RequestKey(httpMethod, endpoint, status));
      if fault.None? {
        requestDurationSeconds := Inc(requestDurationSeconds, DurationKey(httpMethod, endpoint));
      }
    }

    /** `record_exception`: one increment of `http_exceptions_total`, nothing else. */
    method RecordException(httpMethod: string, endpoint: string, exceptionType: string)
      requires Valid()
      modifies this
      ensures Valid()
      ensures exceptionsTotal == Inc(old(exceptionsTotal), ExceptionKey(httpMethod, endpoint, exceptionType))
      ensures requestsTotal == old(requestsTotal) && requestDurationSeconds == old(requestDurationSeconds)
      ensures NoneDecreased(old(exceptionsTotal), exceptionsTotal)
    {
      exceptionsTotal := Inc(exceptionsTotal, ExceptionKey(httpMethod, endpoint, exceptionType));
    }
  }

  /** The recorder test: one GET /test with status 200 on a fresh recorder counts once. */
  method RecordOneRequest() returns (requests: nat, observations: nat, exceptions: nat)
    ensures requests == 1 && observations == 1 && exceptions == 0
  {
    var m := new ObservabilityMetrics("test-service");
    var raised := m.RecordRequest("GET", "/test", 200, 0.1, None);
    Digits.DecimalExamples();
    requests := Count(m.requestsTotal, RequestLabels("GET", "/test", "200", "test-service"));
    observations := Count(m.requestDurationSeconds, DurationLabels("GET", "/test", "test-service"));
    exceptions := |m.exceptionsTotal|;
  }

  /** The recorder test for exceptions: one ValueError on GET /test counts once. */
  method RecordOneException() returns (exceptions: nat, requests: nat)
    ensures exceptions == 1 && requests == 0
  {
    var m := new ObservabilityMetrics("test-service");
    m.RecordException("GET", "/test", "ValueError");
    exceptions := Count(m.exceptionsTotal, ExceptionLabels("GET", "/test", "ValueError", "test-service"));
    requests := |m.requestsTotal|;
  }
}
