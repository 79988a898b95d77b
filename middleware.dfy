/** The request-id middleware: for every request whose path is not ignored it
    captures the trace id of the active span, runs the rest of the chain, and
    correlates the outcome with that id: the error on failure, the response
    header on every path. */
module Middleware {
  import opened Wrappers
  import opened Types
  import opened Host
  import opened Internal
  import opened Constants
  import opened Utils
  import opened Tracing

  /** A call the middleware makes, in order. */
  datatype MiddlewareCall =
    | CallNext
    | CallSetRequestIdInError(error: Error, traceId: string)
    | CallSetRequestIdInResponse(traceId: string)

  /** The calls made for a request on `path`, when the rest of the chain
      settles as `c` and `active` is the active span. */
  function MiddlewareCalls<V>(options: TracingOptions, path: string, active: Option<Span>, c: Completion<V>): (calls: seq<MiddlewareCall>)
    ensures |calls| >= 1 && calls[0] == CallNext
    ensures |calls| == 1 <==> Ignored(path, options.http.ignoreIncomingPaths)
  {
    if Ignored(path, options.http.ignoreIncomingPaths) then [CallNext]
    else
      var traceId := GetActiveSpan(active).traceId;
      [CallNext]
      + (if c.Threw? then [CallSetRequestIdInError(c.error, traceId)] else [])
      + [CallSetRequestIdInResponse(traceId)]
  }

  /** The middleware produced by `RequestIdMiddlewareProvider.value()`. */
  class RequestIdMiddleware {
    /** The tracing module whose current options the middleware reads. */
    const tracing: TracingModule

    constructor (tracing: TracingModule)
      ensures this.tracing == tracing
    {
      this.tracing := tracing;
    }

    /** Handles a request on `path`. The rest of the chain settles as `c`;
        `endsResponse` says whether it sent the response. Returns the outcome
        (the same value or the same error) and the calls made. */
    method Handle<V>(path: string, response: Response, active: Option<Span>, c: Completion<V>, endsResponse: bool)
      returns (result: Completion<V>, calls: seq<MiddlewareCall>)
      modifies response, if c.Threw? then {c.error} else {}
      ensures result == c
      ensures calls == MiddlewareCalls(tracing.tracingOptions, path, active, c)
      ensures response.writableEnded == (old(response.writableEnded) || endsResponse)
      ensures var options := tracing.tracingOptions;
        var id := RequestIdToSet(options, Some(GetActiveSpan(active).traceId), active);
        if Ignored(path, options.http.ignoreIncomingPaths) then
          response.headers == old(response.headers) && (c.Threw? ==> c.error.requestId == old(c.error.requestId))
        else
          && response.headers == (if !response.writableEnded && id.Some? then old(response.headers)[RequestIdHeader := id.value]
                                  else old(response.headers))
          && (c.Threw? ==> c.error.requestId == if id.Some? then id else old(c.error.requestId))
    {
      var ignored := IsIgnoredPath(path, tracing.tracingOptions.http.ignoreIncomingPaths);
      if ignored {
        response.writableEnded := response.writableEnded || endsResponse;
        return c, [CallNext];
      }
      var traceId := GetActiveSpan(active).traceId;
      calls := [CallNext];
      response.writableEnded := response.writableEnded || endsResponse;
      result := c;
      if result.Threw? {
        SetRequestIdInError(tracing.tracingOptions, result.error, Some(traceId), active);
        calls := calls + [CallSetRequestIdInError(result.error, traceId)];
      }
      SetRequestIdInResponse(tracing.tracingOptions, response, Some(traceId), active);
      calls := calls + [CallSetRequestIdInResponse(traceId)];
    }
  }

  /** An ignored path only calls the rest of the chain. */
  lemma IgnoredPathOnlyCallsNext<V>(options: TracingOptions, path: string, active: Option<Span>, c: Completion<V>)
    requires Ignored(path, options.http.ignoreIncomingPaths)
    ensures MiddlewareCalls(options, path, active, c) == [CallNext]
  {
  }

  /** Otherwise `next` comes first and once; on failure the error setter gets
      the very error `next` threw and the captured trace id; the response
      setter follows, once, with the same trace id, on both paths; on success
      the error setter is never called. */
  lemma CorrelatedCallOrder<V>(options: TracingOptions, path: string, active: Option<Span>, c: Completion<V>)
    requires !Ignored(path, options.http.ignoreIncomingPaths)
    ensures var calls := MiddlewareCalls(options, path, active, c);
      var traceId := GetActiveSpan(active).traceId;
      && calls[0] == CallNext
      && calls[|calls| - 1] == CallSetRequestIdInResponse(traceId)
      && (c.Normal? ==> calls == [CallNext, CallSetRequestIdInResponse(traceId)])
      && (c.Threw? ==> calls == [CallNext, CallSetRequestIdInError(c.error, traceId), CallSetRequestIdInResponse(traceId)])
      && (forall i | 0 <= i < |calls| :: calls[i] == CallNext <==> i == 0)
  {
  }

  /** The request id correlated is the trace id of the active span without
      its padding: an id made of 16 zeros and then `low` yields `low`. */
  lemma HeaderIsUnpaddedTraceId(options: TracingOptions, low: string)
    requires options.enabled && options.setRequestId
    ensures RequestIdToSet(options, Some(GetActiveSpan(Some(Span(ZeroPadding + low))).traceId), Some(Span(ZeroPadding + low)))
            == Some(low)
  {
    RemovePadding(low);
  }

  /** With no active span the trace id is the all-zero id of the placeholder
      span, so with correlation on the middleware still sets a request id: 16
      zeros. */
  lemma NoActiveSpanGivesZeroRequestId(options: TracingOptions)
    requires options.enabled && options.setRequestId
    ensures RequestIdToSet(options, Some(GetActiveSpan(None).traceId), None) == Some(ZeroPadding)
  {
    assert InvalidTraceId == ZeroPadding + ZeroPadding;
    RemovePadding(ZeroPadding);
  }
}
