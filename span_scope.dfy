/** The span discipline shared by the `@trace` wrappers and the tracing
    interceptor: start a span, run the unit of work, on success set the status
    to OK, on failure record the exception and set the status to ERROR with
    the error's message, and end the span on every path. The events a tracer
    records are kept in a log. */
module SpanScope {
  import opened Types
  import opened Sequences

  /** Attribute key of the semantic conventions naming the function a span covers. */
  const CodeFunctionKey: string := "code.function"

  /** The status a span is given. */
  datatype SpanStatus = Ok | ErrorStatus(message: string)

  /** One event of the span log. Every span is started with kind INTERNAL. */
  datatype SpanEvent =
    | StartSpan(tracer: Tracer, name: string, attributes: Attributes)
    | RunWork
    | SetStatus(status: SpanStatus)
    | RecordException(error: Error)
    | EndSpan

  predicate IsStart(e: SpanEvent) { e.StartSpan? }

  predicate IsEnd(e: SpanEvent) { e.EndSpan? }

  predicate IsRunWork(e: SpanEvent) { e.RunWork? }

  predicate IsOkStatus(e: SpanEvent) { e == SetStatus(Ok) }

  predicate IsRecordException(e: SpanEvent) { e.RecordException? }

  /** The events between the unit of work and the end of its span: the OK
      status on success; the exception and the ERROR status with its message
      on failure. */
  function Settlement<V>(c: Completion<V>): (t: seq<SpanEvent>)
    ensures c.Normal? ==> t == [SetStatus(Ok)]
    ensures c.Threw? ==> t == [RecordException(c.error), SetStatus(ErrorStatus(c.error.message))]
  {
    match c
    case Normal(_) => [SetStatus(Ok)]
    case Threw(e) => [RecordException(e), SetStatus(ErrorStatus(e.message))]
  }

  /** The events of one span around a unit of work whose own events are `work`
      and which settled as `c`. */
  function Scoped<V>(start: SpanEvent, work: seq<SpanEvent>, c: Completion<V>): seq<SpanEvent>
  {
    [start] + work + Settlement(c) + [EndSpan]
  }

  /** A scope opens with its start, closes with its end and holds the work's
      events in between. */
  lemma ScopedShape<V>(start: SpanEvent, work: seq<SpanEvent>, c: Completion<V>)
    ensures var t := Scoped(start, work, c);
      && |t| >= 3 && t[0] == start && t[|t| - 1] == EndSpan
      && t[1..1 + |work|] == work
  {
    var t := Scoped(start, work, c);
    assert t == [start] + (work + (Settlement(c) + [EndSpan]));
  }

  /** A scope adds exactly one start and one end to those of the work, and no
      run of work. */
  lemma ScopedCounts<V>(start: SpanEvent, work: seq<SpanEvent>, c: Completion<V>)
    requires start.StartSpan?
    ensures var t := Scoped(start, work, c);
      && Count(t, IsStart) == Count(work, IsStart) + 1
      && Count(t, IsEnd) == Count(work, IsEnd) + 1
      && Count(t, IsRunWork) == Count(work, IsRunWork)
  {
    var s := Settlement(c);
    assert Count(s, IsStart) == 0 && Count(s, IsEnd) == 0 && Count(s, IsRunWork) == 0;
    CountFramed(start, work, s, EndSpan, IsStart);
    CountFramed(start, work, s, EndSpan, IsEnd);
    CountFramed(start, work, s, EndSpan, IsRunWork);
  }

  /** A scope settles once, just before its end: OK and no recorded exception
      beyond the work's on success; the exception followed by the ERROR status
      with its message, and no OK beyond the work's, on failure. */
  lemma ScopedSettles<V>(start: SpanEvent, work: seq<SpanEvent>, c: Completion<V>)
    requires start.StartSpan?
    ensures var t := Scoped(start, work, c);
      && |t| >= 3
      && (c.Normal? ==> t[|t| - 2] == SetStatus(Ok) && Count(t, IsRecordException) == Count(work, IsRecordException))
      && (c.Threw? ==>
            && t[|t| - 3] == RecordException(c.error)
            && t[|t| - 2] == SetStatus(ErrorStatus(c.error.message))
            && Count(t, IsOkStatus) == Count(work, IsOkStatus))
  {
    var s := Settlement(c);
    if c.Normal? {
      CountFramed(start, work, s, EndSpan, IsRecordException);
      CountSingle(s[0], IsRecordException);
    } else {
      CountFramed(start, work, s, EndSpan, IsOkStatus);
      assert forall i | 0 <= i < |s| :: !IsOkStatus(s[i]);
    }
  }

  /** The span events recorded by the tracer, in order. */
  class SpanLog {
    var events: seq<SpanEvent>

    constructor ()
      ensures events == []
    {
      events := [];
    }

    method Record(e: SpanEvent)
      modifies this
      ensures events == old(events) + [e]
    {
      events := events + [e];
    }

    /** The `try`/`catch` outcome of the work: set OK on success, or record the
        exception and set ERROR with its message on failure. */
    method Settle<V>(c: Completion<V>)
      modifies this
      ensures events == old(events) + Settlement(c)
    {
      match c
      case Normal(_) =>
        Record(SetStatus(Ok));
      case Threw(e) =>
        Record(RecordException(e));
        Record(SetStatus(ErrorStatus(e.message)));
    }
  }
}
