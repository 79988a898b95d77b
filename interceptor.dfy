/** The global tracing interceptor: every intercepted method invocation runs
    inside a span named after the method, using the tracer injected when the
    interceptor was created. */
module Interceptors {
  import opened Types
  import opened Sequences
  import opened SpanScope

  /** What the interceptor reads of an invocation: the method name and the
      framework's name for the invoked target. */
  datatype InvocationContext = InvocationContext(methodName: string, targetName: string)

  /** The span attributes: `code.function` set to the target name. */
  function InterceptAttributes(invocation: InvocationContext): Attributes
  {
    map[CodeFunctionKey := StringValue(invocation.targetName)]
  }

  /** The span events of one interception, with `next` settling as `c`. */
  function InterceptEvents<V>(tracer: Tracer, invocation: InvocationContext, c: Completion<V>): (t: seq<SpanEvent>)
    ensures |t| == 3 + |Settlement(c)|
    ensures t[1] == RunWork
  {
    Scoped(StartSpan(tracer, invocation.methodName, InterceptAttributes(invocation)), [RunWork], c)
  }

  class TracingInterceptor {
    /** The tracer bound when the interceptor was resolved. */
    const tracer: Tracer

    constructor (tracer: Tracer)
      ensures this.tracer == tracer
    {
      this.tracer := tracer;
    }

    /** `intercept`: starts the span, calls `next` (which settles as `c`)
        inside it, settles and ends the span, and returns `next`'s value or
        rethrows its error. */
    method Intercept<V>(invocation: InvocationContext, c: Completion<V>, log: SpanLog) returns (result: Completion<V>)
      modifies log
      ensures result == c
      ensures log.events == old(log.events) + InterceptEvents(tracer, invocation, c)
    {
      ghost var before := log.events;
      var start := StartSpan(tracer, invocation.methodName, map[CodeFunctionKey := StringValue(invocation.targetName)]);
      log.Record(start);
      log.Record(RunWork);
      result := c;
      log.Settle(result);
      log.Record(EndSpan);
      assert log.events == before + Scoped(start, [RunWork], c);
    }
  }

  /** One interception opens exactly one span, named after the method, with the
      injected tracer; calls `next` exactly once, inside the span; and ends the
      span exactly once, as its last event. On success the status before the
      end is OK and no exception is recorded; on failure the same error is
      recorded and the status is ERROR with its message, and the status is
      never OK. */
  lemma InterceptProtocol<V>(tracer: Tracer, invocation: InvocationContext, c: Completion<V>)
    ensures var t := InterceptEvents(tracer, invocation, c);
      && t[0] == StartSpan(tracer, invocation.methodName, InterceptAttributes(invocation))
      && t[1] == RunWork
      && t[|t| - 1] == EndSpan
      && Count(t, IsStart) == 1 && Count(t, IsEnd) == 1 && Count(t, IsRunWork) == 1
      && (c.Normal? ==> t[|t| - 2] == SetStatus(Ok) && Count(t, IsRecordException) == 0)
      && (c.Threw? ==>
            && t[|t| - 3] == RecordException(c.error)
            && t[|t| - 2] == SetStatus(ErrorStatus(c.error.message))
            && Count(t, IsOkStatus) == 0)
  {
    var start := StartSpan(tracer, invocation.methodName, InterceptAttributes(invocation));
    ScopedShape(start, [RunWork], c);
    ScopedCounts(start, [RunWork], c);
    ScopedSettles(start, [RunWork], c);
    CountSingle(RunWork, IsStart);
    CountSingle(RunWork, IsEnd);
    CountSingle(RunWork, IsRunWork);
    CountSingle(RunWork, IsRecordException);
    CountSingle(RunWork, IsOkStatus);
  }
}
