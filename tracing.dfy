/** The tracing lifecycle: the process-wide tracer, options, provider and
    tracked exporters, their initialisation from layered configuration and
    their shutdown. SDK objects are tokens numbered by the enabled
    initialisation that built them; every SDK call is recorded in a log. */
module Tracing {
  import opened Wrappers
  import opened Types
  import opened Sequences
  import opened Utils

  /** The tracer provider built by an enabled initialisation. */
  datatype Provider = Provider(generation: nat)

  /** A span exporter built by an enabled initialisation. */
  datatype Exporter = JaegerExporter(generation: nat) | ConsoleExporter(generation: nat)

  /** A span processor attached to a provider, feeding one exporter. */
  datatype Processor = SimpleProcessor(exporter: Exporter) | BatchProcessor(exporter: Exporter)

  datatype Propagator = JaegerPropagator

  /** One call into the tracing SDK. */
  datatype SdkCall =
    | NewResource(attributes: map<string, string>)
    | NewProvider(provider: Provider)
    | NewJaegerExporter(exporter: Exporter, config: JaegerOptions)
    | NewConsoleExporter(exporter: Exporter)
    | AddSpanProcessor(provider: Provider, processor: Processor)
    | SetDiagLogger(logLevel: int)
    | NewJaegerPropagator
    | Register(provider: Provider, propagator: Option<Propagator>)
    | RegisterInstrumentations(provider: Provider, instrumentations: seq<Instrumentation>)
    | GetTracer(name: string, version: Option<string>)

  /** One shutdown issued by `shutdownTracing`. */
  datatype ShutdownCall = ShutdownProvider(provider: Provider) | ShutdownExporter(exporter: Exporter)

  /** The module state: `tracer`, `tracingOptions`, `tracerProvider`,
      `exporters`, and the number of enabled initialisations so far. */
  datatype Pipeline = Pipeline(
    tracer: Tracer,
    options: TracingOptions,
    provider: Option<Provider>,
    exporters: seq<Exporter>,
    generation: nat)

  /** The state left by `initializeTracing`, the SDK calls it made, and
      whether it returned or threw. */
  datatype InitResult = InitResult(pipeline: Pipeline, calls: seq<SdkCall>, outcome: Outcome<string>)

  /** Resource attribute keys of the semantic conventions. */
  const ServiceNameKey: string := "service.name"
  const ServiceVersionKey: string := "service.version"
  const ServiceInstanceIdKey: string := "service.instance.id"

  /** The trace id of the placeholder span used when no span is active. */
  const InvalidTraceId: string := "00000000000000000000000000000000"

  predicate ValidSpanProcessorType(t: string)
  {
    t == SpanProcessorSimple || t == SpanProcessorBatch
  }

  predicate ValidPropagationFormat(f: string)
  {
    f == PropagationJaeger || f == PropagationW3C
  }

  function InvalidSpanProcessorMessage(t: string): string
  {
    "Invalid jaeger span processor type: " + t
  }

  function InvalidPropagationMessage(f: string): string
  {
    "Invalid propagation format: " + f
  }

  /** The resource describing the service: its name, the instance id, and the
      version only when one is set and non-empty. */
  function ResourceAttributes(o: TracingOptions, instanceId: string): (attrs: map<string, string>)
    ensures ServiceNameKey in attrs && attrs[ServiceNameKey] == o.serviceName
    ensures ServiceInstanceIdKey in attrs && attrs[ServiceInstanceIdKey] == instanceId
    ensures attrs.Keys <= {ServiceNameKey, ServiceInstanceIdKey, ServiceVersionKey}
    ensures ServiceVersionKey in attrs <==> o.serviceVersion.Some? && o.serviceVersion.value != ""
    ensures ServiceVersionKey in attrs ==> attrs[ServiceVersionKey] == o.serviceVersion.value
  {
    var base := map[ServiceNameKey := o.serviceName, ServiceInstanceIdKey := instanceId];
    if o.serviceVersion.Some? && o.serviceVersion.value != "" then base[ServiceVersionKey := o.serviceVersion.value]
    else base
  }

  /** `defaultInstrumentations`, as a value: the HTTP instrumentation iff it is enabled. */
  function DefaultInstrumentationsOf(o: TracingOptions): (r: seq<Instrumentation>)
    ensures |r| == if o.http.enabled then 1 else 0
    ensures forall i | 0 <= i < |r| :: r[i] == HttpInstrumentation(o.http)
  {
    if o.http.enabled then [HttpInstrumentation(o.http)] else []
  }

  /** `defaultInstrumentations`: builds the list by pushing onto an empty one. */
  method DefaultInstrumentations(config: TracingOptions) returns (instrumentations: seq<Instrumentation>)
    ensures instrumentations == DefaultInstrumentationsOf(config)
  {
    instrumentations := [];
    if config.http.enabled {
      instrumentations := instrumentations + [HttpInstrumentation(config.http)];
    }
  }

  /** The exporters an enabled initialisation tracks: Jaeger first, then console. */
  function TrackedExporters(o: TracingOptions, g: nat): seq<Exporter>
  {
    (if o.jaeger.enabled then [JaegerExporter(g)] else []) + (if o.console.enabled then [ConsoleExporter(g)] else [])
  }

  /** The processor the Jaeger exporter is attached through. */
  function JaegerProcessor(t: string, e: Exporter): Processor
  {
    if t == SpanProcessorSimple then SimpleProcessor(e) else BatchProcessor(e)
  }

  /** SDK calls wiring the Jaeger exporter (its span processor type valid). */
  function JaegerWiring(o: TracingOptions, p: Provider): seq<SdkCall>
  {
    if o.jaeger.enabled
    then [NewJaegerExporter(JaegerExporter(p.generation), o.jaeger),
          AddSpanProcessor(p, JaegerProcessor(o.jaeger.spanProcessorType, JaegerExporter(p.generation)))]
    else []
  }

  /** SDK calls wiring the console exporter, always through a simple processor. */
  function ConsoleWiring(o: TracingOptions, p: Provider): seq<SdkCall>
  {
    if o.console.enabled
    then [NewConsoleExporter(ConsoleExporter(p.generation)), AddSpanProcessor(p, SimpleProcessor(ConsoleExporter(p.generation)))]
    else []
  }

  function DiagnosticsCalls(o: TracingOptions): seq<SdkCall>
  {
    if o.diagnostics.enabled then [SetDiagLogger(o.diagnostics.logLevel)] else []
  }

  /** The propagator registered: Jaeger's for the Jaeger format, none (the
      ambient default) otherwise. */
  function PropagatorOf(o: TracingOptions): Option<Propagator>
  {
    if o.propagationFormat == PropagationJaeger then Some(JaegerPropagator) else None
  }

  function PropagatorCalls(o: TracingOptions): seq<SdkCall>
  {
    if o.propagationFormat == PropagationJaeger then [NewJaegerPropagator] else []
  }

  /** The first two calls of an enabled initialisation: the resource and the provider. */
  function SetupCalls(o: TracingOptions, p: Provider, instanceId: string): seq<SdkCall>
  {
    [NewResource(ResourceAttributes(o, instanceId)), NewProvider(p)]
  }

  /** The calls of an enabled initialisation up to the choice of propagator. */
  function WiredCalls(o: TracingOptions, p: Provider, instanceId: string): seq<SdkCall>
  {
    SetupCalls(o, p, instanceId) + JaegerWiring(o, p) + ConsoleWiring(o, p) + DiagnosticsCalls(o) + PropagatorCalls(o)
  }

  /** The closing calls of a successful initialisation: register the provider,
      register the instrumentations, get the tracer. */
  function RegistrationCalls(o: TracingOptions, p: Provider): seq<SdkCall>
  {
    [Register(p, PropagatorOf(o)),
     RegisterInstrumentations(p, DefaultInstrumentationsOf(o) + o.instrumentations),
     GetTracer(o.serviceName, o.serviceVersion)]
  }

  /** `initializeTracing` for resolved options `o`, as a value: install the
      options; when enabled, build the resource and a new provider, wire the
      exporters (rejecting an unknown span processor type), set up diagnostics,
      choose the propagator (rejecting an unknown format), register, register
      the instrumentations, and install the tracer last. */
  function Initialized(s: Pipeline, o: TracingOptions, instanceId: string): (r: InitResult)
    ensures r.pipeline.options == o
    ensures !o.enabled ==> r.calls == [] && r.outcome == Pass
    ensures r.outcome.Fail? ==> o.enabled && r.pipeline.tracer == s.tracer
  {
    var s1 := s.(options := o);
    if !o.enabled then InitResult(s1, [], Pass)
    else
      var p := Provider(s.generation + 1);
      var s2 := s1.(provider := Some(p), generation := p.generation);
      if o.jaeger.enabled && !ValidSpanProcessorType(o.jaeger.spanProcessorType) then
        InitResult(s2, SetupCalls(o, p, instanceId) + [NewJaegerExporter(JaegerExporter(p.generation), o.jaeger)],
                   Fail(InvalidSpanProcessorMessage(o.jaeger.spanProcessorType)))
      else
        var s3 := s2.(exporters := s.exporters + TrackedExporters(o, p.generation));
        if !ValidPropagationFormat(o.propagationFormat) then
          InitResult(s3, WiredCalls(o, p, instanceId), Fail(InvalidPropagationMessage(o.propagationFormat)))
        else
          InitResult(s3.(tracer := SdkTracer(o.serviceName, o.serviceVersion, p.generation)),
                     WiredCalls(o, p, instanceId) + RegistrationCalls(o, p), Pass)
  }

  predicate IsRegister(c: SdkCall) { c.Register? }

  predicate IsRegisterInstrumentations(c: SdkCall) { c.RegisterInstrumentations? }

  /** No call before the propagator choice registers anything. */
  lemma WiredCallsRegisterNothing(o: TracingOptions, p: Provider, instanceId: string)
    ensures Count(WiredCalls(o, p, instanceId), IsRegister) == 0
    ensures Count(WiredCalls(o, p, instanceId), IsRegisterInstrumentations) == 0
  {
    var w := WiredCalls(o, p, instanceId);
    assert forall i | 0 <= i < |w| :: !IsRegister(w[i]) && !IsRegisterInstrumentations(w[i]);
  }

  /** The closing calls register the provider once and the instrumentations once. */
  lemma RegistrationCallsRegisterOnce(o: TracingOptions, p: Provider)
    ensures Count(RegistrationCalls(o, p), IsRegister) == 1
    ensures Count(RegistrationCalls(o, p), IsRegisterInstrumentations) == 1
  {
    var t := RegistrationCalls(o, p);
    assert t == [t[0]] + [t[1], t[2]];
    assert [t[1], t[2]] == [t[1]] + [t[2]];
    CountAppend([t[1]], [t[2]], IsRegister);
    CountAppend([t[0]], [t[1], t[2]], IsRegister);
    CountAppend([t[1]], [t[2]], IsRegisterInstrumentations);
    CountAppend([t[0]], [t[1], t[2]], IsRegisterInstrumentations);
    CountSingle(t[0], IsRegister);
    CountSingle(t[1], IsRegister);
    CountSingle(t[2], IsRegister);
    CountSingle(t[0], IsRegisterInstrumentations);
    CountSingle(t[1], IsRegisterInstrumentations);
    CountSingle(t[2], IsRegisterInstrumentations);
  }

  /** Orders exporters: by initialisation, Jaeger before console. */
  function Rank(e: Exporter): nat
  {
    match e
    case JaegerExporter(g) => 2 * g
    case ConsoleExporter(g) => 2 * g + 1
  }

  /** Invariant of the module state: the provider is the one of the latest
      enabled initialisation, and the tracked exporters were built by earlier
      initialisations, in order, none twice. */
  ghost predicate WellFormed(s: Pipeline)
  {
    && (s.provider.Some? <==> s.generation > 0)
    && (s.provider.Some? ==> s.provider.value == Provider(s.generation))
    && (s.tracer.SdkTracer? ==> 0 < s.tracer.generation <= s.generation)
    && (forall i | 0 <= i < |s.exporters| :: 0 < s.exporters[i].generation <= s.generation)
    && (forall i, j | 0 <= i < j < |s.exporters| :: Rank(s.exporters[i]) < Rank(s.exporters[j]))
  }

  /** The state before any initialisation. */
  function InitialPipeline(defaults: TracingOptions): (s: Pipeline)
    ensures WellFormed(s)
  {
    Pipeline(NoopTracer, defaults, None, [], 0)
  }

  /** Appending the exporters of a newer initialisation keeps the tracked
      exporters ordered. */
  lemma AppendTrackedKeepsOrder(es: seq<Exporter>, o: TracingOptions, g: nat)
    requires g > 0
    requires forall i | 0 <= i < |es| :: 0 < es[i].generation < g
    requires forall i, j | 0 <= i < j < |es| :: Rank(es[i]) < Rank(es[j])
    ensures var es' := es + TrackedExporters(o, g);
      && (forall i | 0 <= i < |es'| :: 0 < es'[i].generation <= g)
      && (forall i, j | 0 <= i < j < |es'| :: Rank(es'[i]) < Rank(es'[j]))
  {
    var t := TrackedExporters(o, g);
    var es' := es + t;
    assert forall k | 0 <= k < |t| :: t[k].generation == g && 2 * g <= Rank(t[k]);
    assert |t| == 2 ==> Rank(t[0]) < Rank(t[1]);
    forall i, j | 0 <= i < j < |es'|
      ensures Rank(es'[i]) < Rank(es'[j])
    {
      if i < |es| {
        assert Rank(es[i]) < 2 * g;
      }
    }
  }

  /** Initialisation keeps the invariant, whether it returns or throws. */
  lemma InitPreservesWellFormed(s: Pipeline, o: TracingOptions, instanceId: string)
    requires WellFormed(s)
    ensures WellFormed(Initialized(s, o, instanceId).pipeline)
  {
    var r := Initialized(s, o, instanceId).pipeline;
    if !o.enabled {
      assert r == s.(options := o);
    } else if o.jaeger.enabled && !ValidSpanProcessorType(o.jaeger.spanProcessorType) {
      assert r == s.(options := o, provider := Some(Provider(s.generation + 1)), generation := s.generation + 1);
    } else {
      AppendTrackedKeepsOrder(s.exporters, o, s.generation + 1);
      assert r.exporters == s.exporters + TrackedExporters(o, s.generation + 1);
      assert r.provider == Some(Provider(r.generation)) && r.generation == s.generation + 1;
    }
  }

  /** The result of an initialisation that returns, spelled out. */
  lemma InitializedOnSuccess(s: Pipeline, o: TracingOptions, instanceId: string)
    requires o.enabled && (o.jaeger.enabled ==> ValidSpanProcessorType(o.jaeger.spanProcessorType))
    requires ValidPropagationFormat(o.propagationFormat)
    ensures var p := Provider(s.generation + 1);
      Initialized(s, o, instanceId) == InitResult(
        Pipeline(SdkTracer(o.serviceName, o.serviceVersion, p.generation), o, Some(p),
                 s.exporters + TrackedExporters(o, p.generation), p.generation),
        WiredCalls(o, p, instanceId) + RegistrationCalls(o, p), Pass)
  {
  }

  /** Options are always installed; when tracing is disabled nothing else
      changes, no SDK call is made and nothing is torn down. */
  lemma InitDisabled(s: Pipeline, o: TracingOptions, instanceId: string)
    requires !o.enabled
    ensures var r := Initialized(s, o, instanceId);
      r.pipeline == s.(options := o) && r.calls == [] && r.outcome == Pass
  {
  }

  /** With Jaeger enabled and an unknown span processor type, initialisation
      throws after building the provider and the exporter, but before the
      exporter is tracked, before registering and before the tracer changes. */
  lemma InitRejectsSpanProcessorType(s: Pipeline, o: TracingOptions, instanceId: string)
    requires o.enabled && o.jaeger.enabled && !ValidSpanProcessorType(o.jaeger.spanProcessorType)
    ensures var r := Initialized(s, o, instanceId);
      && r.outcome == Fail("Invalid jaeger span processor type: " + o.jaeger.spanProcessorType)
      && r.pipeline.options == o
      && r.pipeline.provider == Some(Provider(s.generation + 1))
      && NewJaegerExporter(JaegerExporter(s.generation + 1), o.jaeger) in r.calls
      && r.pipeline.exporters == s.exporters
      && r.pipeline.tracer == s.tracer
      && Count(r.calls, IsRegister) == 0
      && Count(r.calls, IsRegisterInstrumentations) == 0
  {
    var c := Initialized(s, o, instanceId).calls;
    assert forall i | 0 <= i < |c| :: !IsRegister(c[i]) && !IsRegisterInstrumentations(c[i]);
  }

  /** An unknown propagation format throws after the exporters were tracked,
      before registering and before the tracer changes. */
  lemma InitRejectsPropagationFormat(s: Pipeline, o: TracingOptions, instanceId: string)
    requires o.enabled && (o.jaeger.enabled ==> ValidSpanProcessorType(o.jaeger.spanProcessorType))
    requires !ValidPropagationFormat(o.propagationFormat)
    ensures var r := Initialized(s, o, instanceId);
      && r.outcome == Fail("Invalid propagation format: " + o.propagationFormat)
      && r.pipeline.exporters == s.exporters + TrackedExporters(o, s.generation + 1)
      && r.pipeline.tracer == s.tracer
      && Count(r.calls, IsRegister) == 0
      && Count(r.calls, IsRegisterInstrumentations) == 0
  {
    WiredCallsRegisterNothing(o, Provider(s.generation + 1), instanceId);
  }

  /** Valid options: initialisation returns; the exporters are appended to the
      tracked ones; `register` is called exactly once with the chosen
      propagator; the instrumentations are registered exactly once, the HTTP
      one (iff enabled) before the caller's, even when the list is empty; and
      getting the tracer is the last call, its result the new tracer. */
  lemma InitSucceeds(s: Pipeline, o: TracingOptions, instanceId: string)
    requires o.enabled && (o.jaeger.enabled ==> ValidSpanProcessorType(o.jaeger.spanProcessorType))
    requires ValidPropagationFormat(o.propagationFormat)
    ensures var r := Initialized(s, o, instanceId);
      var p := Provider(s.generation + 1);
      && r.outcome == Pass
      && r.pipeline.provider == Some(p)
      && r.pipeline.exporters == s.exporters + TrackedExporters(o, p.generation)
      && r.pipeline.tracer == SdkTracer(o.serviceName, o.serviceVersion, p.generation)
      && Count(r.calls, IsRegister) == 1
      && Register(p, PropagatorOf(o)) in r.calls
      && Count(r.calls, IsRegisterInstrumentations) == 1
      && RegisterInstrumentations(p, DefaultInstrumentationsOf(o) + o.instrumentations) in r.calls
      && r.calls[|r.calls| - 1] == GetTracer(o.serviceName, o.serviceVersion)
  {
    InitializedOnSuccess(s, o, instanceId);
    var p := Provider(s.generation + 1);
    var w := WiredCalls(o, p, instanceId);
    var t := RegistrationCalls(o, p);
    WiredCallsRegisterNothing(o, p, instanceId);
    RegistrationCallsRegisterOnce(o, p);
    CountAppend(w, t, IsRegister);
    CountAppend(w, t, IsRegisterInstrumentations);
    assert (w + t)[|w|] == t[0] && (w + t)[|w| + 1] == t[1];
  }

  /** A Jaeger exporter goes through a simple processor for SIMPLE and a
      batch processor for BATCH. */
  lemma InitJaegerProcessor(s: Pipeline, o: TracingOptions, instanceId: string)
    requires o.enabled && o.jaeger.enabled && ValidSpanProcessorType(o.jaeger.spanProcessorType)
    ensures var r := Initialized(s, o, instanceId);
      var p := Provider(s.generation + 1);
      && (o.jaeger.spanProcessorType == SpanProcessorSimple ==>
            AddSpanProcessor(p, SimpleProcessor(JaegerExporter(p.generation))) in r.calls)
      && (o.jaeger.spanProcessorType == SpanProcessorBatch ==>
            AddSpanProcessor(p, BatchProcessor(JaegerExporter(p.generation))) in r.calls)
  {
    var p := Provider(s.generation + 1);
    var r := Initialized(s, o, instanceId);
    assert r.calls[3] == AddSpanProcessor(p, JaegerProcessor(o.jaeger.spanProcessorType, JaegerExporter(p.generation)));
  }

  /** The tracer changes only when an enabled initialisation returns; the
      tracked exporters only ever grow. */
  lemma InitTracerAndExporters(s: Pipeline, o: TracingOptions, instanceId: string)
    ensures var r := Initialized(s, o, instanceId);
      && r.pipeline.tracer == (if o.enabled && r.outcome.Pass? then SdkTracer(o.serviceName, o.serviceVersion, s.generation + 1)
                               else s.tracer)
      && s.exporters <= r.pipeline.exporters
  {
  }

  /** `initializeTracing({enabled: true})` over the defaults with an empty
      environment: a batch-processed Jaeger exporter, the Jaeger propagator and
      the HTTP instrumentation are registered and an SDK tracer is installed. */
  lemma DefaultEnabledScenario(s: Pipeline, details: ServiceDetails, instanceId: string)
    ensures var o := MergeTracingConfig(Constants.DefaultTracingOptions(details), EmptyConfig.(enabled := Some(true)), EmptyConfig);
      var r := Initialized(s, o, instanceId);
      var p := Provider(s.generation + 1);
      && r.outcome == Pass
      && AddSpanProcessor(p, BatchProcessor(JaegerExporter(p.generation))) in r.calls
      && Register(p, Some(JaegerPropagator)) in r.calls
      && RegisterInstrumentations(p, [HttpInstrumentation(o.http)]) in r.calls
      && r.pipeline.tracer.SdkTracer?
  {
    var o := MergeTracingConfig(Constants.DefaultTracingOptions(details), EmptyConfig.(enabled := Some(true)), EmptyConfig);
    InitSucceeds(s, o, instanceId);
    InitJaegerProcessor(s, o, instanceId);
    assert DefaultInstrumentationsOf(o) + o.instrumentations == [HttpInstrumentation(o.http)];
  }

  /** The shutdowns `shutdownTracing` issues: the provider's, if there is one,
      then one per tracked exporter, in order. */
  function ShutdownCalls(provider: Option<Provider>, exporters: seq<Exporter>): (r: seq<ShutdownCall>)
    ensures |r| == |exporters| + (if provider.Some? then 1 else 0)
    ensures forall k | 0 <= k < |r| :: r[k].ShutdownProvider? <==> provider.Some? && k == 0
    ensures provider.Some? ==> r[0] == ShutdownProvider(provider.value)
  {
    (if provider.Some? then [ShutdownProvider(provider.value)] else [])
    + seq(|exporters|, i requires 0 <= i < |exporters| => ShutdownExporter(exporters[i]))
  }

  /** With nothing initialised, shutdown shuts nothing down. */
  lemma ShutdownUninitialised(defaults: TracingOptions)
    ensures ShutdownCalls(InitialPipeline(defaults).provider, InitialPipeline(defaults).exporters) == []
  {
  }

  /** In a well-formed state, shutdown reaches the provider and every tracked
      exporter, each exactly once. */
  lemma ShutdownEachOnce(s: Pipeline)
    requires WellFormed(s)
    ensures var r := ShutdownCalls(s.provider, s.exporters);
      && Distinct(r)
      && (s.provider.Some? ==> ShutdownProvider(s.provider.value) in r)
      && (forall i | 0 <= i < |s.exporters| :: ShutdownExporter(s.exporters[i]) in r)
  {
    var r := ShutdownCalls(s.provider, s.exporters);
    var k := if s.provider.Some? then 1 else 0;
    forall i | 0 <= i < |s.exporters|
      ensures r[k + i] == ShutdownExporter(s.exporters[i])
    {
    }
    forall i, j | 0 <= i < j < |r|
      ensures r[i] != r[j]
    {
      if i >= k {
        assert Rank(s.exporters[i - k]) < Rank(s.exporters[j - k]);
      }
    }
  }

  /** Shutdown reaches every tracked exporter. */
  lemma ShutdownReachesTracked(provider: Option<Provider>, exporters: seq<Exporter>, e: Exporter)
    requires e in exporters
    ensures ShutdownExporter(e) in ShutdownCalls(provider, exporters)
  {
    var i :| 0 <= i < |exporters| && exporters[i] == e;
    var r := ShutdownCalls(provider, exporters);
    var k := if provider.Some? then 1 else 0;
    assert r[k + i] == ShutdownExporter(e);
  }

  /** Re-initialising replaces the provider without shutting the earlier one
      down: after an initialisation that returns and a second enabled one,
      shutdown reaches the first initialisation's exporters but only the
      second provider. */
  lemma ReinitialisationDropsEarlierProvider(s: Pipeline, o1: TracingOptions, o2: TracingOptions, id1: string, id2: string)
    requires WellFormed(s)
    requires o1.enabled && (o1.jaeger.enabled ==> ValidSpanProcessorType(o1.jaeger.spanProcessorType))
    requires ValidPropagationFormat(o1.propagationFormat)
    requires o2.enabled
    ensures var s1 := Initialized(s, o1, id1).pipeline;
      var s2 := Initialized(s1, o2, id2).pipeline;
      var r := ShutdownCalls(s2.provider, s2.exporters);
      && ShutdownProvider(Provider(s.generation + 2)) in r
      && ShutdownProvider(Provider(s.generation + 1)) !in r
      && (forall e | e in TrackedExporters(o1, s.generation + 1) :: ShutdownExporter(e) in r)
  {
    InitializedOnSuccess(s, o1, id1);
    var s1 := Initialized(s, o1, id1).pipeline;
    var s2 := Initialized(s1, o2, id2).pipeline;
    InitTracerAndExporters(s1, o2, id2);
    assert s2.provider == Some(Provider(s.generation + 2));
    var r := ShutdownCalls(s2.provider, s2.exporters);
    assert r[0] == ShutdownProvider(Provider(s.generation + 2));
    var t := TrackedExporters(o1, s.generation + 1);
    forall e | e in t
      ensures ShutdownExporter(e) in r
    {
      assert e in s1.exporters;
      ShutdownReachesTracked(s2.provider, s2.exporters, e);
    }
  }

  /** `getActiveSpan`: the span bound to the ambient context, or a non-recording
      placeholder whose trace id is all zeros. Never absent. */
  function GetActiveSpan(active: Option<Span>): (span: Span)
    ensures active.Some? ==> span == active.value
    ensures active.None? ==> span.traceId == InvalidTraceId
  {
    if active.Some? then active.value else Span(InvalidTraceId)
  }

  /** The module state of the tracing setup. */
  class TracingModule {
    /** The default options and the environment layer, fixed at start-up. */
    const defaults: TracingOptions
    const env: TracingConfig

    var tracer: Tracer
    var tracingOptions: TracingOptions
    var tracerProvider: Option<Provider>
    var exporters: seq<Exporter>
    var generation: nat

    function State(): Pipeline
      reads this
    {
      Pipeline(tracer, tracingOptions, tracerProvider, exporters, generation)
    }

    ghost predicate Valid()
      reads this
    {
      WellFormed(State())
    }

    /** Module load: the no-op tracer, the default options, no provider, no exporters. */
    constructor (defaults: TracingOptions, env: TracingConfig)
      ensures Valid()
      ensures this.defaults == defaults && this.env == env
      ensures State() == InitialPipeline(defaults)
    {
      this.defaults := defaults;
      this.env := env;
      tracer := NoopTracer;
      tracingOptions := defaults;
      tracerProvider := None;
      exporters := [];
      generation := 0;
    }

    /** `initializeTracing(config)`; `instanceId` is the freshly generated
        service instance id, `made` the SDK calls made, in order. A thrown
        configuration error is the `Fail` outcome. */
    method InitializeTracing(config: TracingConfig, instanceId: string) returns (outcome: Outcome<string>, made: seq<SdkCall>)
      requires Valid()
      modifies this
      ensures Valid()
      ensures var r := Initialized(old(State()), MergeTracingConfig(defaults, config, env), instanceId);
        State() == r.pipeline && made == r.calls && outcome == r.outcome
    {
      ghost var s := State();
      outcome, made := InitializeWith(MergeTracingConfig(defaults, config, env), instanceId);
      InitPreservesWellFormed(s, MergeTracingConfig(defaults, config, env), instanceId);
    }

    /** The body of `initializeTracing` once the options are merged. */
    method InitializeWith(options: TracingOptions, instanceId: string) returns (outcome: Outcome<string>, made: seq<SdkCall>)
      modifies this
      ensures var r := Initialized(old(State()), options, instanceId);
        State() == r.pipeline && made == r.calls && outcome == r.outcome
    {
      ghost var s := State();
      tracingOptions := options;
      if !options.enabled {
        return Pass, [];
      }
      generation := generation + 1;
      var provider := Provider(generation);
      var resource := NewResource(ResourceAttributes(options, instanceId));
      tracerProvider := Some(provider);
      var setup := [resource, NewProvider(provider)];
      var wiredJaeger, jaegerCalls := WireJaeger(options, provider);
      if !wiredJaeger {
        assert exporters == s.exporters;
        return Fail(InvalidSpanProcessorMessage(options.jaeger.spanProcessorType)), setup + jaegerCalls;
      }
      var consoleCalls := WireConsole(options, provider);
      assert exporters == s.exporters + TrackedExporters(options, generation);
      var diagnosticsCalls := [];
      if options.diagnostics.enabled {
        diagnosticsCalls := [SetDiagLogger(options.diagnostics.logLevel)];
      }
      var propagator: Option<Propagator> := None;
      var propagatorCalls := [];
      if options.propagationFormat == PropagationJaeger {
        propagatorCalls := [NewJaegerPropagator];
        propagator := Some(JaegerPropagator);
      } else if options.propagationFormat != PropagationW3C {
        outcome := Fail(InvalidPropagationMessage(options.propagationFormat));
        return outcome, setup + jaegerCalls + consoleCalls + diagnosticsCalls + propagatorCalls;
      }
      var defaultInstrumentations := DefaultInstrumentations(options);
      made := setup + jaegerCalls + consoleCalls + diagnosticsCalls + propagatorCalls
        + [Register(provider, propagator),
           RegisterInstrumentations(provider, defaultInstrumentations + options.instrumentations),
           GetTracer(options.serviceName, options.serviceVersion)];
      tracer := SdkTracer(options.serviceName, options.serviceVersion, generation);
      return Pass, made;
    }

    /** The Jaeger step of `initializeTracing`: build the exporter, attach it
        through the configured processor and track it; `false` when the
        processor type is unknown, in which case the exporter is built but
        neither attached nor tracked. */
    method WireJaeger(options: TracingOptions, provider: Provider) returns (ok: bool, made: seq<SdkCall>)
      requires provider.generation == generation
      modifies this
      ensures ok <==> !options.jaeger.enabled || ValidSpanProcessorType(options.jaeger.spanProcessorType)
      ensures ok ==> made == JaegerWiring(options, provider)
      ensures !ok ==> made == [NewJaegerExporter(JaegerExporter(generation), options.jaeger)]
      ensures exporters == old(exporters) + (if ok && options.jaeger.enabled then [JaegerExporter(generation)] else [])
      ensures tracer == old(tracer) && tracingOptions == old(tracingOptions)
      ensures tracerProvider == old(tracerProvider) && generation == old(generation)
    {
      if !options.jaeger.enabled {
        return true, [];
      }
      var jaegerExporter := JaegerExporter(generation);
      made := [NewJaegerExporter(jaegerExporter, options.jaeger)];
      if options.jaeger.spanProcessorType == SpanProcessorSimple {
        made := made + [AddSpanProcessor(provider, SimpleProcessor(jaegerExporter))];
      } else if options.jaeger.spanProcessorType == SpanProcessorBatch {
        made := made + [AddSpanProcessor(provider, BatchProcessor(jaegerExporter))];
      } else {
        return false, made;
      }
      exporters := exporters + [jaegerExporter];
      return true, made;
    }

    /** The console step of `initializeTracing`: build the exporter, attach it
        through a simple processor and track it, when enabled. */
    method WireConsole(options: TracingOptions, provider: Provider) returns (made: seq<SdkCall>)
      requires provider.generation == generation
      modifies this
      ensures made == ConsoleWiring(options, provider)
      ensures exporters == old(exporters) + (if options.console.enabled then [ConsoleExporter(generation)] else [])
      ensures tracer == old(tracer) && tracingOptions == old(tracingOptions)
      ensures tracerProvider == old(tracerProvider) && generation == old(generation)
    {
      made := [];
      if options.console.enabled {
        var consoleExporter := ConsoleExporter(generation);
        made := [NewConsoleExporter(consoleExporter), AddSpanProcessor(provider, SimpleProcessor(consoleExporter))];
        exporters := exporters + [consoleExporter];
      }
    }

    /** `init`: the same as `initializeTracing`. */
    method Init(config: TracingConfig, instanceId: string) returns (outcome: Outcome<string>, made: seq<SdkCall>)
      requires Valid()
      modifies this
      ensures Valid()
      ensures var r := Initialized(old(State()), MergeTracingConfig(defaults, config, env), instanceId);
        State() == r.pipeline && made == r.calls && outcome == r.outcome
    {
      outcome, made := InitializeTracing(config, instanceId);
    }

    /** `shutdownTracing`: collects the provider's shutdown, if a provider
        exists, and each tracked exporter's. The state is left as it is, so a
        second call issues the same shutdowns again. */
    method ShutdownTracing() returns (shutdowns: seq<ShutdownCall>)
      ensures shutdowns == ShutdownCalls(tracerProvider, exporters)
    {
      shutdowns := [];
      if tracerProvider.Some? {
        shutdowns := shutdowns + [ShutdownProvider(tracerProvider.value)];
      }
      ghost var head := shutdowns;
      var tracked := exporters;
      for i := 0 to |tracked|
        invariant shutdowns == head + seq(i, k requires 0 <= k < i => ShutdownExporter(tracked[k]))
      {
        shutdowns := shutdowns + [ShutdownExporter(tracked[i])];
      }
    }
  }
}
