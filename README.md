# fastapi-observability: per-request dispatch, modelled in Dafny

fastapi-observability adds structured logging, Prometheus metrics and
OpenTelemetry tracing to a FastAPI application. Nearly all of it is glue
over those three libraries. The logic of its own is what each HTTP
middleware does for one request. That logic is modelled here:

- whether the request is excluded from instrumentation;
- calling the downstream handler (`call_next`) exactly once;
- which counter or histogram label tuple is bumped;
- which log event is emitted, at which level and with which fields;
- returning the handler's response unchanged, or re-raising its exception
  unchanged.

The repository holds two parallel package trees, and each becomes its own
set of modules.

**Current tree (`src/fastapi_observability`).**

- `Middleware.ObservabilityMiddleware.Dispatch` is `dispatch`. The handler
  result is an input `Outcome` (`Ok(response)` or `Err(exception)`). An
  exception raised by `log_request`, or by `record_request` after its count
  increment, is an input `Fault`.
  `Dispatch` returns the re-raised or returned outcome. It also returns the
  calls it made to its collaborators, in order.
- `Metrics.ObservabilityMetrics` holds the three series as
  `map<labels, nat>` fields. A histogram keeps only its observation count.
- `Logger.ObservabilityLogger` builds the bound context and the
  `log_request` / `log_error` events, and appends them to an `events`
  sequence.
- `Facade.Observability` is the feature-flag constructor of
  `FastAPIObservability` and its `get_logger` guard. It mutates an `App`
  that records the middleware, routes and instrumentation added to it.

**Older tree (`fastapi_observability`).**

- `LegacyMiddleware` is its middleware: exact-path exclusion, a request
  count with status 500 on failure, and one log event with the span ids.
- `LegacyMetrics` is the `setup_metrics` middleware over the
  process-wide `REQUEST_COUNT` / `REQUEST_LATENCY`.
- `LegacyFacade` is the older `FastAPIObservability`, with its separate
  metrics and logging middlewares.
- `LegacyTracing` is the `excluded_urls` comma-join.

**Shared modules.**

- `Digits` is the `format(n, "032x")` / `format(n, "016x")` encoder for
  trace and span ids, and the `str(int)` encoder used for status labels.
  Both come with round-trip and width lemmas.
- `Counters` is a counter per label tuple: a missing key reads as 0, and
  every update adds exactly 1.
- `Events` holds the log events and key-overriding dict merge.
- `Http` holds the request, response, exception and span values.

The current span is an `Option<SpanContext>` input (`None` when
`trace.get_current_span()` is falsy). Elapsed times are opaque `real`
inputs.

`dispatch` calls `self.logger` and `self.metrics` unconditionally, so
`Dispatch` requires both collaborators (`Ready()`). `FastAPIObservability`
nevertheless adds the middleware with `logger = None` when only Prometheus
is enabled, and with `metrics = None` when only structlog is enabled.
`Facade.Wiring` proves that the middleware it adds is ready exactly when
both features are on. In the other two configurations every request would
fail with `AttributeError` inside the middleware. The test suite expects
otherwise in places:

- it expects the prometheus-only application to answer normally
  (tests/test_integration.py:46-54);
- it expects `dispatch` to tolerate a missing logger or missing metrics
  (tests/test_middleware.py:76-128).

The model follows the code.

Two more places where the tests do not match the code:

- The metrics tests construct the recorder with a registry argument that
  the constructor does not take (tests/test_metrics.py:5-9).
- The tests feed `bytes` as trace and span ids. `format(b, "032x")` is not
  defined for bytes. Ids are modelled as naturals, and the expected
  `"0101…01"` is the rendering of the integer `0x0101…01`.

## Model

| member | source | states |
|---|---|---|
| Digits.TraceIdHex | src/fastapi_observability/metrics.py:35 | `format(id, "032x")`: lowercase hex, at least 32 characters, exactly 32 iff id < 16^32, and it parses back to the id |
| Digits.SpanIdHex | src/fastapi_observability/logger.py:32 | `format(id, "016x")`: lowercase hex, at least 16 characters, exactly 16 iff id < 16^16, and it parses back to the id |
| Digits.FormatHex | src/fastapi_observability/logger.py:31-32 | `format(n, "0<w>x")`: lowercase hex, at least w characters and at least as long as the unpadded digits, and exactly one of the two lengths |
| Digits.FormatHexRoundTrip | src/fastapi_observability/logger.py:31-32 | reading a zero-padded hex rendering back gives the original number, whatever the width |
| Digits.FormatHexWidth | fastapi_observability/middleware.py:66-67 | the rendering has exactly the padding width iff the number fits in that many hex digits |
| Digits.ToDigitsRoundTrip | src/fastapi_observability/metrics.py:35 | the unpadded base-b digits of n read back as n |
| Digits.ToDigitsFits | src/fastapi_observability/metrics.py:35 | n has at most w digits in base b iff n < b^w |
| Digits.HexDeterminedByValue | tests/test_metrics.py:22-26 | two hex strings of equal length with the same value are the same string, so the 32-digit rendering of an id is unique |
| Digits.DecimalRoundTrip | src/fastapi_observability/metrics.py:43 | `str(status)` parses back to the status, negative values included |
| Digits.DecimalInjective | src/fastapi_observability/metrics.py:43 | two statuses share a label string iff they are equal |
| Digits.DecimalString | src/fastapi_observability/metrics.py:43 | `str(i)`: non-empty, starts with "-" iff i < 0 (followed by at least one digit), every other character is a decimal digit, and there is no leading zero except in "0" itself |
| Digits.DecimalExamples | tests/test_middleware.py:43-48 | `str(200) == "200"` and `str(500) == "500"` |
| Counters.Inc | src/fastapi_observability/metrics.py:45 | `.inc()` adds exactly 1 at its label tuple; every other tuple keeps its count |
| Counters.IncNeverDecreases | src/fastapi_observability/metrics.py:45-60 | an increment never lowers any count |
| Events.Merge | src/fastapi_observability/logger.py:56-57 | `dict.update`: the union of the keys, where the second map's values win and the first fills in the rest |
| Events.EventLog.constructor | fastapi_observability/middleware.py:14 | the sink `setup_logger(app_name)` or `structlog.get_logger()` returns has emitted nothing |
| Events.EventLog.Emit | fastapi_observability/middleware.py:60-68 | one emitted event is appended to the sink and nothing else changes |
| Metrics.Exemplar | src/fastapi_observability/metrics.py:30-36 | `{}` without a span; with one, the single key `trace_id` holds lowercase hex of at least 32 digits, exactly 32 iff the id < 2^128, parsing back to the trace id |
| Metrics.ObservabilityMetrics.constructor | src/fastapi_observability/metrics.py:7-28 | the recorder starts with three empty series, labelled with its service name |
| Metrics.ObservabilityMetrics.RequestKey | src/fastapi_observability/metrics.py:40-45 | the `http_requests_total` labels are the given method and endpoint, a status string that parses back to the status, and the recorder's service name |
| Metrics.ObservabilityMetrics.DurationKey | src/fastapi_observability/metrics.py:47-51 | the histogram labels are the given method and endpoint and the service name, with no status |
| Metrics.ObservabilityMetrics.ExceptionKey | src/fastapi_observability/metrics.py:55-60 | the `http_exceptions_total` labels are the given method, endpoint and exception type, and the service name |
| Metrics.ObservabilityMetrics.RecordRequest | src/fastapi_observability/metrics.py:38-51 | requests_total +1 at (method, endpoint, str(status), service) always, since `.inc()` runs first; then one histogram observation at (method, endpoint, service) unless the exemplar or observe step raises, in which case the histogram is unchanged and the exception is passed on; every other key and `exceptions_total` unchanged; nothing decreases; the service label invariant is kept |
| Metrics.ObservabilityMetrics.RecordException | src/fastapi_observability/metrics.py:53-60 | only exceptions_total changes: +1 at (method, endpoint, exception_type, service) |
| Metrics.RecordOneRequest | tests/test_metrics.py:34-50 | after one `record_request("GET", "/test", 200, …)` on a fresh recorder, the request count is 1, there is 1 observation, and no exceptions |
| Metrics.RecordOneException | tests/test_metrics.py:52-62 | after one `record_exception` on a fresh recorder, the exception count is 1 and no request is counted |
| Logger.RequestData | src/fastapi_observability/logger.py:40-48 | `log_data` has method, url, client_host and status_code, plus `error` iff the error is truthy; status_code is None without a response and client_host is None without a client |
| Logger.ObservabilityLogger.constructor | src/fastapi_observability/logger.py:6-8 | a logger for the given service name that has emitted nothing |
| Logger.ObservabilityLogger.BoundContext | src/fastapi_observability/logger.py:25-35 | `service` is always bound; with a span, `trace_id` is `format(trace_id, "032x")` and `span_id` is `format(span_id, "016x")` (lowercase hex of at least 32 / 16 digits that parse back to the ids); without one, only `service` |
| Logger.ObservabilityLogger.RequestEvent | src/fastapi_observability/logger.py:37-51 | level is error iff a truthy error is given, and the name is `request_failed` then, `request_completed` otherwise; the field keys are the bound context plus `log_data`; status_code is None iff there is no response; client_host is None iff there is no client; error is `str(error)` when present; the bound `trace_id`, `span_id` and `service` keep their bound values |
| Logger.ObservabilityLogger.ErrorEvent | src/fastapi_observability/logger.py:53-59 | an `error_occurred` event at error level; the keys are the bound context, `error` and the context's keys; context values override both `error` and the bound fields; every bound field the context does not override keeps its bound value |
| Logger.ObservabilityLogger.LogRequest | src/fastapi_observability/logger.py:37-51 | exactly one `RequestEvent` is appended, or none when the sink raises, in which case the exception is passed back |
| Logger.ObservabilityLogger.LogError | src/fastapi_observability/logger.py:53-59 | exactly one `ErrorEvent` is appended |
| Logger.LogRequestTwice | tests/test_logger.py:36-53 | a successful then a failed `log_request` emit `request_completed` at info, then `request_failed` at error |
| Middleware.Caught | src/fastapi_observability/middleware.py:25-42 | the handler's own exception reaches `except`; after a response, an exception from `log_request` or `record_request` does too, and nothing else does |
| Middleware.ErrorContext | src/fastapi_observability/middleware.py:46-50 | the `log_error` context has exactly method, url and duration |
| Middleware.Calls | src/fastapi_observability/middleware.py:22-59 | `call_next` comes first and only once. On success, `log_request` comes second and `record_request` third, each exactly once; a raising `log_request` skips `record_request`. The last two calls are `log_error` then `record_exception` exactly when an exception was caught. So there are 3 calls for a raising handler or no fault, 4 when `log_request` raises and 5 when `record_request` raises |
| Middleware.ObservabilityMiddleware.constructor | src/fastapi_observability/middleware.py:10-20 | the middleware keeps the given service name, logger and metrics, either of which may be absent |
| Middleware.ObservabilityMiddleware.Dispatch | src/fastapi_observability/middleware.py:22-59 | returns the handler's response, or re-raises the caught exception unchanged. requests_total +1 exactly when the handler returned and `log_request` did not raise; the histogram +1 exactly when nothing raised. One `request_completed` event when the handler returned and `log_request` did not raise, then one `error_occurred` event when an exception was caught. exceptions_total +1 at the exception's class name exactly when an exception was caught. The calls are exactly `Calls(...)` |
| Middleware.ObservabilityMiddleware.TryBlock | src/fastapi_observability/middleware.py:25-40 | the `try` part after `call_next`: `log_request` then `record_request`, stopping at the first that raises; the exception reaching `except` is `Caught(...)`; requests_total +1 iff `record_request` was reached; `exceptions_total` untouched |
| Middleware.SuccessfulRequest | tests/test_middleware.py:20-48 | one successful GET /test returns the response and leaves requests_total[(GET, /test, "200", svc)] == 1, no exception and one log event |
| Middleware.FailedRequest | tests/test_middleware.py:50-74 | a ValueError handler re-raises ValueError, with exceptions_total[(GET, /test, ValueError, svc)] == 1, no request counted and an error-level event |
| Middleware.RaiseAfterCount | src/fastapi_observability/metrics.py:45-51 | a `record_request` whose exemplar or `observe` step raises after the increment: the request stays counted at 1, nothing is observed, exceptions_total[(GET, /test, RuntimeError, svc)] == 1 and the exception is re-raised |
| Facade.Observability.constructor | src/fastapi_observability/__init__.py:9-45 | logger exists iff structlog is on; metrics iff prometheus; tracer provider iff opentelemetry (and the app is instrumented with it); the middleware is added exactly once iff structlog or prometheus, carrying exactly those (possibly absent) collaborators; `/metrics` is routed iff prometheus |
| Facade.Observability.GetLogger | src/fastapi_observability/__init__.py:47-51 | RuntimeError("Structlog is not enabled") iff structlog is off; otherwise exactly the logger's `BoundContext` for the current span, whose `service` is the service name |
| Facade.Wiring | src/fastapi_observability/__init__.py:25-51 | the whole decision table on a fresh app; the middleware can dispatch iff both structlog and prometheus are on |
| LegacyMetrics.Registry.constructor | fastapi_observability/metrics.py:7-17 | the module-level `REQUEST_COUNT` and `REQUEST_LATENCY` series start empty |
| LegacyMetrics.Excluded | fastapi_observability/metrics.py:23-24 | exclusion holds iff the path is an exact member of the list; without a list, or with an empty one, nothing is excluded |
| LegacyMetrics.CountKey | fastapi_observability/metrics.py:37-42 | the count labels carry the given app name, the request's method and path, and a status string that parses back to the status |
| LegacyMetrics.LatencyKey | fastapi_observability/metrics.py:30-34 | the latency labels carry the given app name and the request's method and path |
| LegacyMetrics.MetricsMiddleware | fastapi_observability/metrics.py:21-44 | the handler's outcome comes back unchanged; an excluded path or a raising handler changes nothing; otherwise there is one latency observation and then one count +1, both labelled "fastapi-app", and nothing else |
| LegacyMetrics.ExcludedFailure | fastapi_observability/metrics.py:23-27 | a raising request to an excluded path propagates and leaves both series empty |
| LegacyMiddleware.SpanFields | fastapi_observability/middleware.py:66-67 | the fields are exactly `trace_id` = `format(trace_id, "032x")` and `span_id` = `format(span_id, "016x")`: at least 32 and 16 lowercase hex digits that parse back to the span's ids |
| LegacyMiddleware.ProcessedEvent | fastapi_observability/middleware.py:60-68 | info level, named "Request processed" |
| LegacyMiddleware.ProcessedEventFields | fastapi_observability/middleware.py:60-68 | its fields are exactly method, path, status_code, duration, trace_id and span_id, with their values |
| LegacyMiddleware.FailedEvent | fastapi_observability/middleware.py:86-93 | error level, named "Request failed" |
| LegacyMiddleware.FailedEventFields | fastapi_observability/middleware.py:86-93 | its fields are exactly method, path, error = `str(e)`, trace_id and span_id |
| LegacyMiddleware.ObservabilityMiddleware.constructor | fastapi_observability/middleware.py:11-17 | a missing logger is replaced by a fresh one; a missing exclusion list becomes `[]` |
| LegacyMiddleware.ObservabilityMiddleware.Dispatch | fastapi_observability/middleware.py:19-94 | an excluded path calls the handler and changes nothing. On success: count +1 at (app, method, path, status), one latency observation, then "Request processed". On failure: count +1 at status 500, no latency, then "Request failed". The outcome comes back unchanged. |
| LegacyMiddleware.ObservabilityMiddleware.Processed | fastapi_observability/middleware.py:43-68 | after a response: count +1 at (app, method, path, status), one latency observation, then "Request processed", in that order |
| LegacyMiddleware.ObservabilityMiddleware.Failed | fastapi_observability/middleware.py:72-93 | after a raise: count +1 at status 500, no latency observation, then "Request failed" |
| LegacyMiddleware.DefaultListExcludesNothing | fastapi_observability/middleware.py:17-22 | with no exclusion list, `/health` is counted once and logged once |
| LegacyFacade.StartedEvent | fastapi_observability/__init__.py:86-91 | `request_started` at info with exactly method, path and client; client is None iff the request has no client |
| LegacyFacade.CompletedEvent | fastapi_observability/__init__.py:95-100 | `request_completed` at info with exactly method, path and status_code |
| LegacyFacade.CountKey | fastapi_observability/__init__.py:55-59 | the count labels are method, path and a status string that parses back to the status |
| LegacyFacade.DurationKey | fastapi_observability/__init__.py:61-64 | the duration labels are method and path |
| LegacyFacade.Observability.constructor | fastapi_observability/__init__.py:12-17 | the given app name, both series empty, and a fresh logger that has emitted nothing |
| LegacyFacade.Observability.MetricsMiddleware | fastapi_observability/__init__.py:48-66 | after a response, one count +1 then one duration observation; a raising handler changes nothing; no log event; the outcome comes back unchanged |
| LegacyFacade.Observability.LoggingMiddleware | fastapi_observability/__init__.py:84-102 | `request_started` before `call_next` and, only after a response, `request_completed`; metrics untouched; the outcome comes back unchanged |
| LegacyFacade.Observability.Serve | fastapi_observability/__init__.py:48-102 | the two middlewares composed, logging outermost: started, handler, count, duration, completed; a raising handler leaves only `request_started` |
| LegacyFacade.TwoRequests | fastapi_observability/__init__.py:48-102 | a successful and a raising request on a fresh instance: one count, one observation, and started/completed/started |
| LegacyTracing.ExcludedUrls | fastapi_observability/tracing.py:26 | `""` for no list or an empty one; the element itself for a single element; otherwise the first element, a comma, and the join of the rest |
| LegacyTracing.Join | fastapi_observability/tracing.py:26 | `",".join`: "" for no elements, the element itself for one, and otherwise the first element first, with the elements' total length plus one comma between each pair of neighbours |
| LegacyTracing.SplitPrefix | fastapi_observability/tracing.py:26 | splitting a comma-free prefix followed by a tail glues the prefix onto the tail's first piece |
| LegacyTracing.SplitJoin | fastapi_observability/tracing.py:26 | splitting on "," the join of a non-empty list of comma-free elements gives the list back, in order |
| LegacyTracing.ExcludedUrlsRoundTrip | fastapi_observability/tracing.py:26 | `str.split(",")` of `excluded_urls` gives back exactly the configured non-empty, comma-free exclusion list |
| LegacyTracing.CommaInsideSplits | fastapi_observability/tracing.py:26 | an endpoint containing a comma comes back from `str.split(",")` as two endpoints |

## Left out

- OpenTelemetry mechanics are not modelled: span creation, span attributes, span status, exception recording, W3C trace-context extraction, tracer-provider and exporter setup, and the `FastAPIInstrumentor` calls. These are library calls and network export. The current span is an input. `Facade.Observability.constructor` only records which tracer provider the app was instrumented with.
- src/fastapi_observability/instrumentation.py is not part of this model.
- The Prometheus exposition is not modelled (`get_metrics`, `generate_latest`, the content type), nor histogram buckets and sums. These are library internals and floating-point values. A histogram is an observation count, and `/metrics` is only a registered path.
- The exemplar attached to each observation is not modelled: `Metrics.Exemplar` computes it, but the histogram does not store it.
- Wall-clock time is not modelled. Every duration is an opaque input.
- structlog is not modelled: its configuration, processors (timestamps, level names, JSON rendering) and level filtering. An event is a level, a name and its keyword fields. So Python's clash between a context key named `event` and the event name is not modelled either.
- The older tree's `logger.py` is not part of this model. Its logger is the `EventLog` sink.
- Async scheduling and concurrent requests are not modelled; requests are handled one at a time.
- Middleware.Caught, Middleware.ObservabilityMiddleware.Dispatch, LegacyMiddleware.ObservabilityMiddleware.Dispatch: every `Err` outcome is an instance of `Exception`. Both sources catch only `except Exception`. An exception that derives only from `BaseException` (`asyncio.CancelledError`, `KeyboardInterrupt`, `SystemExit`) skips the logging and counting of the `except` block and propagates unrecorded. The model does not represent that case.
- LegacyTracing.ExcludedUrlsRoundTrip: what the FastAPI instrumentation does with `excluded_urls` is library code and is not modelled. The lemma is about Python's `str.split(",")`. OpenTelemetry additionally strips each entry and matches the entries as regular expressions against the URL.
- Middleware.ObservabilityMiddleware.Dispatch: `log_error` and `record_exception` on the failure path are assumed not to raise. If either raised, that exception would replace the original one.
- LegacyMiddleware.ObservabilityMiddleware.Dispatch: the metrics and logger calls are assumed not to raise. If one raised after a successful handler, the `except` block would count a second time with status 500.
- LegacyFacade.Observability.Serve: the nesting order of `@app.middleware("http")` registrations is Starlette's behaviour: the last one registered is the outermost. It is stated here and not derived. The tracing setup of the same constructor is left out, as above.
- Both trees register their series in prometheus_client's process-wide default registry: the older tree at module import (fastapi_observability/metrics.py:7-17) and the src tree in each `FastAPIObservabilityMetrics` constructor (src/fastapi_observability/metrics.py:11-28). A second `FastAPIObservabilityMetrics` or `FastAPIObservability` in one process would fail with a duplicated-timeseries error. The per-test fixture at tests/test_middleware.py:8-18 builds a new recorder for every test, so from the second test on it would hit that error. Each model instance owns its series, so that failure is not modelled.
- In the running program `trace.get_current_span()` returns a truthy invalid span outside any request. That span renders as all-zero ids. The model simply takes whichever span, or none, the caller supplies.
