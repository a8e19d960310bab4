/**
 * The request-level values every middleware of both package trees sees: the
 * incoming request, the downstream handler's outcome and the current span.
 */
module Http {

  datatype Option<T> = None | Some(value: T)

  /**
   * An incoming request: `request.method` (httpMethod), `str(request.url)` (the full URL),
   * `request.url.path`, and `request.client.host` when the client is known.
   */
  datatype Request = Request(httpMethod: string, url: string, path: string, client: Option<string>)

  datatype Response = Response(statusCode: int, body: string)

  /** A raised exception: `type(e).__name__` and `str(e)`. */
  datatype Exception = Exception(typeName: string, message: string)

  /** What the downstream handler (`call_next`) does: return a response or raise. */
  datatype Outcome = Ok(response: Response) | Err(exception: Exception)

  /** The trace and span ids of the current span. */
  datatype SpanContext = SpanContext(traceId: nat, spanId: nat)

  /** A value that is either a result or a raised exception. */
  datatype Result<T> = Success(value: T) | Failure(error: Exception)
}
