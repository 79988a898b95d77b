/** The tracing component and the lifecycle observer: what the component binds
    into the application for the current options, and the observer's stop. */
module Component {
  import opened Wrappers
  import opened Types
  import opened Host
  import opened Utils
  import opened Tracing

  /** The binding keys the component adds for options `o`. */
  function ComponentKeys(o: TracingOptions): (keys: set<string>)
    ensures TracerKey in keys && ActiveSpanKey in keys
    ensures ObserverKey in keys <==> o.enabled
    ensures InterceptorKey in keys <==> o.enabled && o.methodInvocations.enabled
    ensures ErrorWriterOptionsKey in keys <==> o.enabled && o.setRequestId
    ensures MiddlewareKey in keys <==> o.enabled && o.setRequestId
    ensures keys <= {TracerKey, ActiveSpanKey, ObserverKey, InterceptorKey, ErrorWriterOptionsKey, MiddlewareKey}
  {
    {TracerKey, ActiveSpanKey}
    + (if o.enabled then {ObserverKey} else {})
    + (if o.enabled && o.methodInvocations.enabled then {InterceptorKey} else {})
    + (if o.enabled && o.setRequestId then {ErrorWriterOptionsKey, MiddlewareKey} else {})
  }

  /** The application's bindings after the component is constructed over
      `bindings`, with options `o` and tracer `t` current. */
  function ComponentBindings(bindings: map<string, Binding>, o: TracingOptions, t: Tracer,
                             errorWriterOptions: Option<ErrorWriterOptions>): (b: map<string, Binding>)
    ensures b.Keys == bindings.Keys + ComponentKeys(o)
    ensures b[TracerKey] == TracerValue(t) && b[ActiveSpanKey] == ActiveSpanProvider
    ensures forall k | k in bindings && k !in ComponentKeys(o) :: b[k] == bindings[k]
    ensures o.enabled && o.setRequestId ==>
      b[ErrorWriterOptionsKey] == ErrorWriter(WithRequestIdSafeField(errorWriterOptions))
  {
    var always := bindings[TracerKey := TracerValue(t)][ActiveSpanKey := ActiveSpanProvider];
    var observed := if o.enabled then always[ObserverKey := LifeCycleObserver] else always;
    var intercepted := if o.enabled && o.methodInvocations.enabled then observed[InterceptorKey := GlobalInterceptor] else observed;
    if o.enabled && o.setRequestId
    then intercepted[ErrorWriterOptionsKey := ErrorWriter(WithRequestIdSafeField(errorWriterOptions))][MiddlewareKey := MiddlewareProvider]
    else intercepted
  }

  class TracingComponent {
    const application: Application

    /** Binds the current tracer (as a value) and the active-span provider;
        when tracing is enabled, also the lifecycle observer, the interceptor
        when method invocations are traced, and the request-id safe field and
        middleware when request ids are set. */
    constructor (application: Application, tracing: TracingModule)
      modifies application
      ensures this.application == application
      ensures application.bindings ==
        ComponentBindings(old(application.bindings), tracing.tracingOptions, tracing.tracer, old(application.ErrorWriterOptionsOf()))
    {
      this.application := application;
      var options := tracing.tracingOptions;
      application.bindings := application.bindings[TracerKey := TracerValue(tracing.tracer)];
      application.bindings := application.bindings[ActiveSpanKey := ActiveSpanProvider];
      if options.enabled {
        application.bindings := application.bindings[ObserverKey := LifeCycleObserver];
        if options.methodInvocations.enabled {
          application.bindings := application.bindings[InterceptorKey := GlobalInterceptor];
        }
        if options.setRequestId {
          ghost var existing := old(application.ErrorWriterOptionsOf());
          assert application.ErrorWriterOptionsOf() == existing;
          AddRequestIdToSafeFields(application);
          application.bindings := application.bindings[MiddlewareKey := MiddlewareProvider];
        }
      }
    }
  }

  /** With tracing disabled only the tracer and the active-span provider are
      bound; nothing else in the application changes. */
  lemma DisabledBindsOnlyTracerAndSpan(bindings: map<string, Binding>, o: TracingOptions, t: Tracer, e: Option<ErrorWriterOptions>)
    requires !o.enabled
    ensures ComponentBindings(bindings, o, t, e) == bindings[TracerKey := TracerValue(t)][ActiveSpanKey := ActiveSpanProvider]
  {
  }

  /** The lifecycle observer registered by the component. */
  class TracingObserver {
    const tracing: TracingModule

    constructor (tracing: TracingModule)
      ensures this.tracing == tracing
    {
      this.tracing := tracing;
    }

    /** `stop`: shuts tracing down. */
    method Stop() returns (shutdowns: seq<ShutdownCall>)
      ensures shutdowns == ShutdownCalls(tracing.tracerProvider, tracing.exporters)
    {
      shutdowns := tracing.ShutdownTracing();
    }
  }
}
