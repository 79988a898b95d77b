/** The shapes of the tracing component: resolved options, the partial
    configuration a caller or the environment supplies, and the small
    vocabulary (spans, tracers, errors) shared by the other modules. */
module Types {
  import opened Wrappers

  /** One entry of `http.ignoreIncomingPaths`: an exact path, a regular
      expression (kept abstract as the predicate it tests), or any other value,
      which matches nothing. */
  datatype Matcher = Exact(path: string) | Pattern(test: string -> bool) | Unsupported

  /** An instrumentation handed to the SDK: the HTTP instrumentation built from
      the `http` options, or one supplied by the caller (an opaque handle). */
  datatype Instrumentation = HttpInstrumentation(config: HttpOptions) | UserInstrumentation(id: nat)

  /** Accepted values of `propagationFormat`; any other string is a configuration error. */
  const PropagationJaeger: string := "jaeger"
  const PropagationW3C: string := "w3c"

  /** Accepted values of `jaeger.spanProcessor.type`; any other string is a configuration error. */
  const SpanProcessorSimple: string := "simple"
  const SpanProcessorBatch: string := "batch"

  /** `jaeger`, with `spanProcessor.type` flattened into `spanProcessorType`.
      The two enumerations are strings because the environment layer can put
      any string there. */
  datatype JaegerOptions = JaegerOptions(
    enabled: bool,
    host: Option<string>,
    port: Option<int>,
    endpoint: Option<string>,
    spanProcessorType: string)

  datatype ConsoleOptions = ConsoleOptions(enabled: bool)

  datatype DiagnosticsOptions = DiagnosticsOptions(enabled: bool, logLevel: int)

  datatype MethodInvocationOptions = MethodInvocationOptions(enabled: bool)

  datatype HttpOptions = HttpOptions(enabled: bool, ignoreIncomingPaths: seq<Matcher>)

  /** The resolved options (`TracingOptions`). */
  datatype TracingOptions = TracingOptions(
    enabled: bool,
    serviceName: string,
    serviceVersion: Option<string>,
    propagationFormat: string,
    setRequestId: bool,
    jaeger: JaegerOptions,
    console: ConsoleOptions,
    diagnostics: DiagnosticsOptions,
    methodInvocations: MethodInvocationOptions,
    http: HttpOptions,
    instrumentations: seq<Instrumentation>)

  /** The partial shape (`TracingConfig`): every leaf may be left undefined. */
  datatype JaegerConfig = JaegerConfig(
    enabled: Option<bool>,
    host: Option<string>,
    port: Option<int>,
    endpoint: Option<string>,
    spanProcessorType: Option<string>)

  datatype ConsoleConfig = ConsoleConfig(enabled: Option<bool>)

  datatype DiagnosticsConfig = DiagnosticsConfig(enabled: Option<bool>, logLevel: Option<int>)

  datatype MethodInvocationConfig = MethodInvocationConfig(enabled: Option<bool>)

  datatype HttpConfig = HttpConfig(enabled: Option<bool>, ignoreIncomingPaths: Option<seq<Matcher>>)

  datatype TracingConfig = TracingConfig(
    enabled: Option<bool>,
    serviceName: Option<string>,
    serviceVersion: Option<string>,
    propagationFormat: Option<string>,
    setRequestId: Option<bool>,
    jaeger: JaegerConfig,
    console: ConsoleConfig,
    diagnostics: DiagnosticsConfig,
    methodInvocations: MethodInvocationConfig,
    http: HttpConfig,
    instrumentations: Option<seq<Instrumentation>>)

  /** The configuration `{}`: nothing defined. */
  const EmptyConfig: TracingConfig := TracingConfig(
    None, None, None, None, None,
    JaegerConfig(None, None, None, None, None),
    ConsoleConfig(None),
    DiagnosticsConfig(None, None),
    MethodInvocationConfig(None),
    HttpConfig(None, None),
    None)

  /** Name and version of the service (`ServiceDetails`). */
  datatype ServiceDetails = ServiceDetails(name: string, version: Option<string>)

  /** A span attribute value. */
  datatype AttributeValue = StringValue(s: string) | IntValue(i: int) | BoolValue(b: bool)

  type Attributes = map<string, AttributeValue>

  /** Arguments of the `@trace` decorator (`TraceOptions`). */
  datatype TraceOptions = TraceOptions(operationName: Option<string>, attributes: Attributes)

  /** A span as far as this component reads it: the trace id of its context. */
  datatype Span = Span(traceId: string)

  /** The process-wide tracer: the no-op tracer installed before any successful
      initialisation, or the tracer obtained from the SDK for a service name and
      version by the `generation`-th enabled initialisation. */
  datatype Tracer = NoopTracer | SdkTracer(name: string, version: Option<string>, generation: nat)

  /** An error object (`ErrorWithRequestId`); the correlator writes `requestId` in place. */
  class Error {
    const message: string
    var requestId: Option<string>

    constructor (message: string)
      ensures this.message == message && requestId == None
    {
      this.message := message;
      requestId := None;
    }
  }

  /** How a unit of work (a method body, `next()`) settled: with a value, or by
      throwing (or rejecting with) an error object. */
  datatype Completion<+V> = Normal(value: V) | Threw(error: Error)
}
