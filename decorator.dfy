/** The `@trace()` method decorator: at decoration time it either rejects a
    misuse, leaves the method alone (tracing disabled), or replaces it with a
    wrapper that runs the original inside a span named after the method. The
    wrapper reads the process-wide tracer when it is called. */
module TraceDecorator {
  import opened Wrappers
  import opened Types
  import opened Sequences
  import opened SpanScope
  import opened Tracing

  /** The key of a decorated member: a string, or a symbol with its description. */
  datatype PropertyKey = StringKey(name: string) | SymbolKey(description: string)

  /** Whether a method is declared `async`; the wrappers keep the mode of what they wrap. */
  datatype Mode = Sync | Async

  /** The value held by a method's property descriptor: an original method
      body (an opaque handle), or a tracing wrapper around another value. */
  datatype MethodValue =
    | Original(mode: Mode, id: nat)
    | Traced(inner: MethodValue, spanName: string, attributes: Attributes, mode: Mode)

  /** A property descriptor, whose `value` the decorator overwrites in place. */
  class PropertyDescriptor {
    var value: MethodValue

    constructor (value: MethodValue)
      ensures this.value == value
    {
      this.value := value;
    }
  }

  /** The key is truthy: a non-empty string or any symbol. */
  predicate IsTruthyKey(key: Option<PropertyKey>)
  {
    key.Some? && (key.value.SymbolKey? || key.value.name != "")
  }

  /** `propertyKey.toString()`. */
  function MethodName(key: PropertyKey): (name: string)
    ensures key.StringKey? ==> name == key.name
    ensures key.SymbolKey? ==> name == "Symbol(" + key.description + ")"
  {
    match key
    case StringKey(n) => n
    case SymbolKey(d) => "Symbol(" + d + ")"
  }

  /** The error thrown when the decorator is applied to a class or a property;
      `targetName` is the framework's name for the decorated target. */
  function MisuseMessage(targetName: string): string
  {
    "@trace cannot be used on a class or property: " + targetName
  }

  /** The span name: the operation name when given, else the method name. */
  function SpanName(options: TraceOptions, methodName: string): (name: string)
    ensures options.operationName.Some? ==> name == options.operationName.value
    ensures options.operationName.None? ==> name == methodName
  {
    options.operationName.GetOr(methodName)
  }

  /** The span attributes: the caller's, with `code.function` set to the method
      name, which wins over a caller attribute of the same key. */
  function SpanAttributes(options: TraceOptions, methodName: string): (attrs: Attributes)
    ensures CodeFunctionKey in attrs && attrs[CodeFunctionKey] == StringValue(methodName)
    ensures attrs.Keys == options.attributes.Keys + {CodeFunctionKey}
    ensures forall k | k in options.attributes && k != CodeFunctionKey :: attrs[k] == options.attributes[k]
  {
    options.attributes[CodeFunctionKey := StringValue(methodName)]
  }

  function ModeOf(m: MethodValue): Mode
  {
    match m
    case Original(mode, _) => mode
    case Traced(_, _, _, mode) => mode
  }

  /** The wrapper installed for an enabled decoration of `original` under `key`. */
  function Wrapped(options: TraceOptions, key: PropertyKey, original: MethodValue): (w: MethodValue)
    ensures w.Traced? && w.inner == original && ModeOf(w) == ModeOf(original)
    ensures w.spanName == SpanName(options, MethodName(key))
    ensures w.attributes == SpanAttributes(options, MethodName(key))
  {
    var methodName := MethodName(key);
    Traced(original, SpanName(options, methodName), SpanAttributes(options, methodName), ModeOf(original))
  }

  /** The decorator applied to a member: rejects a missing key or descriptor
      (class and property decoration); otherwise returns the same descriptor,
      its value wrapped when tracing is enabled at this moment. */
  method Trace(tracing: TracingModule, options: TraceOptions, targetName: string,
               key: Option<PropertyKey>, descriptor: PropertyDescriptor?)
    returns (r: Result<PropertyDescriptor, string>)
    modifies descriptor
    ensures !IsTruthyKey(key) || descriptor == null ==> r == Failure(MisuseMessage(targetName))
    ensures IsTruthyKey(key) && descriptor != null ==> r == Success(descriptor)
    ensures descriptor != null ==>
      descriptor.value ==
        if IsTruthyKey(key) && tracing.tracingOptions.enabled
        then Wrapped(options, key.value, old(descriptor.value))
        else old(descriptor.value)
  {
    if IsTruthyKey(key) && descriptor != null {
      if !tracing.tracingOptions.enabled {
        return Success(descriptor);
      }
      var methodName := MethodName(key.value);
      var originalMethod := descriptor.value;
      var spanName := options.operationName.GetOr(methodName);
      var attributes := options.attributes[CodeFunctionKey := StringValue(methodName)];
      descriptor.value := Traced(originalMethod, spanName, attributes, ModeOf(originalMethod));
      return Success(descriptor);
    } else {
      return Failure(MisuseMessage(targetName));
    }
  }

  /** How many tracing wrappers `m` is nested in. */
  function Depth(m: MethodValue): nat
  {
    match m
    case Original(_, _) => 0
    case Traced(inner, _, _, _) => 1 + Depth(inner)
  }

  /** The span events of one call of `m`, whose original body settles as `c`,
      with `tracer` installed. */
  function CallEvents<V>(m: MethodValue, tracer: Tracer, c: Completion<V>): (t: seq<SpanEvent>)
    ensures |t| == 1 + Depth(m) * (2 + |Settlement(c)|)
    ensures m.Traced? ==> t[0] == StartSpan(tracer, m.spanName, m.attributes) && t[|t| - 1] == EndSpan
    decreases m
  {
    match m
    case Original(_, _) => [RunWork]
    case Traced(inner, name, attrs, _) => Scoped(StartSpan(tracer, name, attrs), CallEvents(inner, tracer, c), c)
  }

  /** Calling `m`: an original body runs once and settles as `c`; a wrapper
      starts its span with the tracer installed now, calls what it wraps inside
      the span, settles the span from the outcome, ends it, and returns the
      value or rethrows the error it got. */
  method Invoke<V>(tracing: TracingModule, m: MethodValue, c: Completion<V>, log: SpanLog) returns (result: Completion<V>)
    modifies log
    ensures result == c
    ensures log.events == old(log.events) + CallEvents(m, tracing.tracer, c)
    decreases m
  {
    match m
    case Original(_, _) =>
      log.Record(RunWork);
      result := c;
    case Traced(inner, spanName, attributes, _) =>
      ghost var before := log.events;
      log.Record(StartSpan(tracing.tracer, spanName, attributes));
      var outcome := Invoke(tracing, inner, c, log);
      log.Settle(outcome);
      log.Record(EndSpan);
      assert log.events == before + Scoped(StartSpan(tracing.tracer, spanName, attributes), CallEvents(inner, tracing.tracer, c), c);
      result := outcome;
  }

  /** One call of `m` starts and ends as many spans as `m` has wrappers and runs
      the original body exactly once; in particular a method left undecorated
      (tracing disabled at decoration) creates no span. */
  lemma {:induction false} CallEventsBalanced<V>(m: MethodValue, tracer: Tracer, c: Completion<V>)
    ensures var t := CallEvents(m, tracer, c);
      && Count(t, IsStart) == Depth(m)
      && Count(t, IsEnd) == Depth(m)
      && Count(t, IsRunWork) == 1
  {
    match m
    case Original(_, _) =>
      CountSingle(RunWork, IsStart);
      CountSingle(RunWork, IsEnd);
      CountSingle(RunWork, IsRunWork);
    case Traced(inner, name, attrs, _) =>
      CallEventsBalanced(inner, tracer, c);
      ScopedCounts(StartSpan(tracer, name, attrs), CallEvents(inner, tracer, c), c);
  }

  /** A call of a decorated method opens the span named by the decoration with
      the tracer installed at call time, and its last event ends a span; just
      before, on success the status is OK, on failure the same error is
      recorded and the status is ERROR with its message. */
  lemma DecoratedCall<V>(options: TraceOptions, key: PropertyKey, original: MethodValue, tracer: Tracer, c: Completion<V>)
    ensures var t := CallEvents(Wrapped(options, key, original), tracer, c);
      && |t| >= 3
      && t[0] == StartSpan(tracer, SpanName(options, MethodName(key)), SpanAttributes(options, MethodName(key)))
      && t[|t| - 1] == EndSpan
      && (c.Normal? ==> t[|t| - 2] == SetStatus(Ok))
      && (c.Threw? ==> t[|t| - 3] == RecordException(c.error) && t[|t| - 2] == SetStatus(ErrorStatus(c.error.message)))
  {
    var w := Wrapped(options, key, original);
    var start := StartSpan(tracer, w.spanName, w.attributes);
    ScopedShape(start, CallEvents(original, tracer, c), c);
    ScopedSettles(start, CallEvents(original, tracer, c), c);
  }

  /** Decorating an undecorated synchronous method once produces one span per
      call, around exactly one run of the body. */
  lemma DecoratedOnceOneSpan<V>(options: TraceOptions, key: PropertyKey, id: nat, tracer: Tracer, c: Completion<V>)
    ensures var t := CallEvents(Wrapped(options, key, Original(Sync, id)), tracer, c);
      Count(t, IsStart) == 1 && Count(t, IsEnd) == 1 && Count(t, IsRunWork) == 1
  {
    CallEventsBalanced(Wrapped(options, key, Original(Sync, id)), tracer, c);
  }
}
