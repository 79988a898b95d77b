# loopback4-tracing, modelled in Dafny

This project models the core of `loopback4-tracing`, an OpenTelemetry tracing component for LoopBack 4 applications. It covers six parts:

- **Tracing lifecycle** (`tracing.dfy`). The module-wide tracer, options, tracer provider and tracked exporters. `initializeTracing` builds them from layered configuration: defaults, then the caller's config, then environment variables. Each OpenTelemetry SDK call is a token in a call log. `shutdownTracing` shuts them down.
- **Configuration** (`internal.dfy`, `constants.dfy`, `utils.dfy`). The environment readers and the service-manifest fallback. The default options and the environment layer. The lodash deep merge, including how it treats lists.
- **Request-id correlation** (`utils.dfy`, `middleware.dfy`). The trace id of the active span, without its 64-bit zero padding, goes into a thrown error's `requestId` and the `x-request-id` response header. Requests on ignored paths are skipped. `requestId` is added to the error writer's safe fields.
- **`@trace()` decorator** (`decorator.dfy`). Misuse on a class or property is rejected. When tracing is off, the method is left alone; otherwise it is wrapped in a span named after it.
- **Global interceptor** (`interceptor.dfy`). Wraps every method invocation in a span. The span discipline shared with the decorator is in `span_scope.dfy`: start, run the work once, settle OK or record the exception and settle ERROR, always end.
- **Component and lifecycle observer** (`component.dfy`). Which bindings the component adds for the current options. The observer's `stop` shuts tracing down.

The module state is modelled imperatively, and so is everything the source changes in place:

- `Tracing.TracingModule`, the tracing module state;
- `Types.Error`, a thrown error;
- `Host.Response`, a response;
- `Host.Application`, the application's bindings;
- `TraceDecorator.PropertyDescriptor`, the decorated descriptor;
- `SpanScope.SpanLog`, the span events a tracer records.

Each method is proved against a pure specification function: `Initialized`, `ShutdownCalls`, `CallEvents`, `InterceptEvents`, `MiddlewareCalls`, `ComponentBindings`, `RequestIdToSet`. The properties are lemmas about those functions.

In these places the code does something a reader might not expect, and the model follows the code:

- **Lists are merged index by index, not replaced.** Lists in the caller's configuration are merged into the defaults' lists index by index, as lodash `merge` does, rather than replacing them. A shorter caller list therefore keeps the tail of the default list: `["/foo"]` for `ignoreIncomingPaths` keeps "/metrics", "/live", "/ready" and the health pattern (`Utils.CallerListMergedIntoDefaults`).
- **Shutdown does not clear state.** `shutdownTracing` never clears the provider or the exporter list. A second call therefore shuts the same objects down again, rather than doing nothing (`Tracing.TracingModule.ShutdownTracing`).
- **Re-initialising keeps old exporters.** It adds to the tracked exporters and replaces the provider without shutting the earlier one down (`Tracing.ReinitialisationDropsEarlierProvider`).
- **No active span still yields a request id.** With no active span, the middleware reads the all-zero trace id of the placeholder span. With correlation on, it therefore sets the request id "0000000000000000" (`Middleware.NoActiveSpanGivesZeroRequestId`).

## Model

| member | source | states |
|---|---|---|
| Internal.GetServiceDetails | src/internal.ts:4-13 | A failed manifest load gives the default name and no version. Otherwise the version is the manifest's, and the name is the manifest's when it is present and non-empty, else the default. |
| Internal.GetEnv | src/internal.ts:15-17 | Present exactly when the variable is set, with its raw value. |
| Internal.GetEnvNumber | src/internal.ts:19-23 | Absent when unset; otherwise the runtime's number conversion of the value, absent for NaN. |
| Internal.GetEnvBoolean | src/internal.ts:25-31 | True exactly for "true" and false exactly for "false". Unset, empty and any other value give undefined. |
| Internal.MatchesPath | src/internal.ts:51-59 | A string matcher matches by equality and a regular expression by its test. Any other matcher never matches. |
| Internal.IsIgnoredPath | src/internal.ts:37-49 | The loop returns true exactly when some matcher in the list matches the path; an empty list ignores nothing. |
| Constants.DefaultTracingOptions | src/constants.ts:16-46 | Every default: disabled; Jaeger on at localhost:6832 with a batch processor; Jaeger propagation; request ids, method invocations and HTTP on; console and diagnostics off at level ALL; default ignored paths; no instrumentations. |
| Constants.EnvTracingConfig | src/constants.ts:48-76 | Each leaf is read from its own variable through the matching reader (boolean, string or number). The environment never sets the lists. |
| Constants.EmptyEnvironmentDefinesNothing | src/constants.ts:48-76 | With no variable set, the environment layer leaves every option undefined. |
| Constants.MalformedFlagIsUndefined | src/constants.ts:49 | `TRACING_ENABLED` holding anything but "true" or "false" leaves `enabled` undefined, not false. |
| Constants.DefaultIgnoredPathsExamples | src/constants.ts:14 | The default list ignores "/ping" and "/health/live" but not "/test". |
| Utils.ZeroPaddingIsSixteenZeros | src/utils.ts:14 | The padding is sixteen '0' characters. |
| Utils.RemoveZeroPadding | src/utils.ts:47-49 | A padded id is the padding followed by the result; an id without the prefix is returned unchanged. |
| Utils.RemovePadding | src/utils.ts:47-49 | Round trip: removing the padding from padding plus a suffix gives back the suffix. |
| Utils.RemovePaddingOnce | src/utils.ts:48 | Only one run of padding is removed, even when two are present. |
| Utils.MergeList | src/utils.ts:17 | When a later layer gives a list, it becomes the prefix of the result. The result is as long as the longer list, and the earlier list's surplus entries stay in place. With no later list, the earlier one is kept. |
| Utils.MergePrecedence | src/utils.ts:16-18 | For every scalar option, the environment wins over the caller's config, which wins over the defaults; an undefined leaf never overrides. The lists are the caller's, merged into the defaults. |
| Utils.Overlay | src/utils.ts:17 | One layer of the deep merge: a defined `enabled` replaces the earlier one and an undefined one keeps it; an undefined list keeps the earlier list. The full per-leaf statement is `Utils.MergePrecedence`. |
| Utils.MergeTracingConfig | src/utils.ts:16-18 | An empty configuration and an empty environment give exactly the defaults. A defined environment flag wins over the caller's, which wins over the default. |
| Utils.MergeListLayers | src/utils.ts:17 | Merging list layers one by one equals merging their combination once. |
| Utils.CallerListMergedIntoDefaults | src/utils.ts:17 | A caller list at least as long as the default replaces it. `["/foo"]` replaces only "/ping". |
| Utils.GetRequestId | src/utils.ts:43-45 | A given trace id, even an empty one, is used as is. Otherwise the id is the active span's, and absent without one. |
| Utils.RequestIdToSet | src/utils.ts:20-41 | An id is written exactly when tracing and request ids are enabled and a non-empty id resolves. What is written is that id without its padding. |
| Utils.SetRequestIdInError | src/utils.ts:20-28 | The error's `requestId` becomes the id to set when there is one, and is otherwise left as it was. |
| Utils.SetRequestIdInResponse | src/utils.ts:30-41 | The `x-request-id` header is set to the id to set only when the response has not ended. No other header changes. |
| Utils.WithRequestIdSafeField | src/utils.ts:55-57 | The safe fields become the existing ones (or none) followed by `requestId`. The debug option is kept. |
| Utils.AddRequestIdToSafeFields | src/utils.ts:51-58 | The error writer options binding is replaced by the options with `requestId` appended. Every other binding is unchanged. |
| Utils.SafeFieldsKeepExisting | src/utils.ts:51-58 | `{debug: true, safeFields: ["test"]}` becomes `{debug: true, safeFields: ["test", "requestId"]}`. |
| Tracing.ResourceAttributes | src/tracing.ts:47-51 | The resource holds the service name and the instance id. It holds the version exactly when one is set and non-empty, and nothing else. |
| Tracing.DefaultInstrumentations | src/tracing.ts:127-137 | The list built by pushing is `DefaultInstrumentationsOf`: the HTTP instrumentation, configured with the HTTP options, exactly when HTTP tracing is enabled, and nothing else. |
| Tracing.Initialized | src/tracing.ts:41-105 | The options are always installed. Disabled options make no SDK call and return. A throw happens only when enabled, and leaves the tracer as it was. |
| Tracing.InitialPipeline | src/tracing.ts:35-39 | The state at module load (no-op tracer, defaults, no provider, no exporters) satisfies the state invariant. |
| Tracing.InitPreservesWellFormed | src/tracing.ts:41-105 | Initialisation keeps the state invariant whether it returns or throws. The provider is the latest one, and the tracked exporters are ordered by initialisation, none twice. |
| Tracing.InitDisabled | src/tracing.ts:42-46 | With tracing disabled, only the options are installed: no SDK call, and tracer, provider and exporters unchanged. |
| Tracing.InitRejectsSpanProcessorType | src/tracing.ts:53-71 | An unknown Jaeger span processor type throws "Invalid jaeger span processor type: …". The new provider and exporter are already built; the exporter is not tracked, nothing is registered and the tracer is unchanged. |
| Tracing.InitRejectsPropagationFormat | src/tracing.ts:73-92 | An unknown propagation format throws "Invalid propagation format: …". The exporters are already tracked; neither the provider nor the instrumentations are registered, and the tracer is unchanged. |
| Tracing.InitSucceeds | src/tracing.ts:94-101 | Valid options: the call returns and the new exporters are appended. `register` is called once with the chosen propagator. The instrumentations (HTTP first, then the caller's) are registered once. Getting the tracer is the last call, and the new tracer is installed. |
| Tracing.InitJaegerProcessor | src/tracing.ts:61-66 | The Jaeger exporter is attached through a simple processor for SIMPLE and through a batch processor for BATCH. |
| Tracing.InitTracerAndExporters | src/tracing.ts:41-105 | The tracer changes only when an enabled initialisation returns. The tracked exporters only grow. |
| Tracing.DefaultEnabledScenario | src/tracing.ts:41-105 | `{enabled: true}` over the defaults registers a batch-processed Jaeger exporter, the Jaeger propagator and the HTTP instrumentation, and installs an SDK tracer. |
| Tracing.ShutdownCalls | src/tracing.ts:111-121 | One shutdown per tracked exporter, plus the provider's first when there is a provider. |
| Tracing.ShutdownUninitialised | src/tracing.ts:111-121 | Before any initialisation, shutdown shuts nothing down. |
| Tracing.ShutdownReachesTracked | src/tracing.ts:118 | Every tracked exporter is shut down. |
| Tracing.ShutdownEachOnce | src/tracing.ts:111-121 | In a well-formed state, shutdown reaches the provider and every tracked exporter, each exactly once. |
| Tracing.ReinitialisationDropsEarlierProvider | src/tracing.ts:53 | After a successful initialisation and a second enabled one, shutdown reaches the second provider and the first initialisation's exporters, but never the first provider. |
| Tracing.GetActiveSpan | src/tracing.ts:123-125 | The active span when there is one; otherwise a placeholder whose trace id is all zeros. |
| Tracing.TracingModule.constructor | src/tracing.ts:35-39 | The module starts with the no-op tracer, the default options, no provider and no exporters. |
| Tracing.TracingModule.InitializeTracing | src/tracing.ts:41-105 | The new state, the SDK calls made and the outcome are exactly those `Initialized` gives for the merged options. The state invariant is kept. |
| Tracing.TracingModule.InitializeWith | src/tracing.ts:44-104 | The steps after merging, proved equal to `Initialized` on every path: disabled, bad span processor type, bad propagation format, success. |
| Tracing.TracingModule.WireJaeger | src/tracing.ts:55-74 | Succeeds exactly when Jaeger is off or its processor type is known. The exporter is tracked only on success. On failure the exporter is built but not attached. |
| Tracing.TracingModule.WireConsole | src/tracing.ts:76-80 | When enabled, the console exporter is attached through a simple processor and tracked. Otherwise nothing changes. |
| Tracing.TracingModule.Init | src/tracing.ts:107-109 | The same result as `initializeTracing`. |
| Tracing.TracingModule.ShutdownTracing | src/tracing.ts:111-121 | The shutdowns issued are `ShutdownCalls` of the current provider and exporters. The state is not changed. |
| Internal.HealthPattern | src/constants.ts:14 | The default health pattern accepts "/health" and "/health/", only accepts paths starting with "/health", and rejects a rest containing a line feed. |
| SpanScope.Settlement | src/interceptors/tracing.interceptor.ts:36-46 | On success, status OK. On failure, the same error recorded, then status ERROR with its message. |
| SpanScope.ScopedShape | src/interceptors/tracing.interceptor.ts:31-49 | A scope opens with its start, ends with the span's end and holds the work in between. |
| SpanScope.ScopedCounts | src/interceptors/tracing.interceptor.ts:31-49 | A scope adds exactly one span start and one span end to the work's, and no extra run of the work. |
| SpanScope.ScopedSettles | src/interceptors/tracing.interceptor.ts:36-46 | Just before the end: on success OK, with no extra recorded exception; on failure the exception, then ERROR with its message, with no extra OK. |
| SpanScope.SpanLog.Settle | src/interceptors/tracing.interceptor.ts:38-45 | Appends exactly the settlement of the outcome to the log. |
| TraceDecorator.MethodName | src/decorators/trace.decorator.ts:20 | A string key is its own name. A symbol key prints as "Symbol(description)". |
| TraceDecorator.SpanName | src/decorators/trace.decorator.ts:22 | The operation name when given, else the method name. |
| TraceDecorator.SpanAttributes | src/decorators/trace.decorator.ts:23-29 | The caller's attributes plus `code.function`, which is set to the method name and overrides a caller entry with the same key. |
| TraceDecorator.Wrapped | src/decorators/trace.decorator.ts:20-31 | The wrapper holds the original, the span name and the attributes, and keeps the original's sync or async mode. |
| TraceDecorator.Trace | src/decorators/trace.decorator.ts:12-78 | A missing or empty key, or a missing descriptor, throws the misuse error. Otherwise the same descriptor is returned. Its value is wrapped exactly when tracing is enabled at decoration time. |
| TraceDecorator.CallEvents | src/decorators/trace.decorator.ts:31-69 | A call of a method in `n` wrappers produces one run of the body plus, per wrapper, a start, an end and the settlement. A wrapped call starts its own span first and ends a span last. |
| TraceDecorator.Invoke | src/decorators/trace.decorator.ts:31-69 | A call returns the original's value or rethrows its error. It appends exactly `CallEvents` to the log, using the tracer installed at call time. |
| TraceDecorator.CallEventsBalanced | src/decorators/trace.decorator.ts:31-69 | A call starts and ends one span per wrapper and runs the original body exactly once. An undecorated method creates no span. |
| TraceDecorator.DecoratedCall | src/decorators/trace.decorator.ts:50-68 | A decorated call first starts the configured span with the current tracer, and last ends it. Just before the end the status is OK on success; on failure the error is recorded and the status is ERROR. |
| TraceDecorator.DecoratedOnceOneSpan | src/decorators/trace.decorator.ts:50-68 | Decorating a method once gives exactly one span start, one end and one run of the body per call. |
| Interceptors.InterceptEvents | src/interceptors/tracing.interceptor.ts:31-49 | One interception is the start, one run of `next`, the settlement and the end. |
| Interceptors.TracingInterceptor.Intercept | src/interceptors/tracing.interceptor.ts:27-50 | Returns `next`'s value or rethrows its error, and appends exactly the interception's span events. |
| Interceptors.InterceptProtocol | src/interceptors/tracing.interceptor.ts:31-49 | One span, named after the method, with `code.function` set to the target name and the injected tracer. `next` runs once, inside the span. The span ends once, last. OK and no recorded exception on success; the error recorded and ERROR, never OK, on failure. |
| Middleware.MiddlewareCalls | src/middleware/request-id.middleware.ts:21-37 | The rest of the chain is always called first. It is the only call exactly when the path is ignored. |
| Middleware.RequestIdMiddleware.Handle | src/middleware/request-id.middleware.ts:20-39 | The outcome of the rest of the chain is passed through. An ignored path changes nothing. Otherwise a thrown error gets the correlated id, and the header is set unless the response has ended. |
| Middleware.IgnoredPathOnlyCallsNext | src/middleware/request-id.middleware.ts:22-26 | On an ignored path, only the rest of the chain is called. |
| Middleware.CorrelatedCallOrder | src/middleware/request-id.middleware.ts:28-37 | `next` is called first and once. On failure the error setter follows, with the very error thrown. The response setter comes last on both paths, with the same captured trace id. |
| Middleware.HeaderIsUnpaddedTraceId | src/middleware/request-id.middleware.ts:28-36 | A trace id of sixteen zeros followed by `low` is correlated as `low`. |
| Middleware.NoActiveSpanGivesZeroRequestId | src/middleware/request-id.middleware.ts:28 | With no active span and correlation on, the request id set is sixteen zeros. |
| Component.ComponentKeys | src/component.ts:25-39 | The tracer and active span are always bound. The observer is bound exactly when tracing is enabled. The interceptor is bound exactly when method invocations are also enabled. The safe field and middleware are bound exactly when request ids are also enabled. Nothing else is bound. |
| Component.ComponentBindings | src/component.ts:25-39 | The tracer is bound as a value and the active span as a provider. When request ids are on, the error writer options gain `requestId`. Bindings the component does not own are unchanged. |
| Component.TracingComponent.constructor | src/component.ts:19-41 | The application's bindings become exactly `ComponentBindings` for the current options and tracer. |
| Component.DisabledBindsOnlyTracerAndSpan | src/component.ts:25-29 | With tracing disabled, only the tracer and the active span are bound. |
| Component.TracingObserver.Stop | src/observers/tracing.observer.ts:7-9 | Stopping issues exactly the shutdowns of `shutdownTracing`. |

## Left out

- OpenTelemetry SDK objects (provider, exporters, processors, propagator, resource, tracer) are tokens in a call log. Their own behaviour is not part of this model: exporting and batching. Options that are only handed to the SDK are left out: `tracerConfig`, `tags`, `spanProcessor.config`, the Jaeger exporter fields other than host, port and endpoint, and the `http` instrumentation options other than `enabled` and `ignoreIncomingPaths`.
- Span kind INTERNAL and the context propagation of the active span are not modelled: the active span is a parameter. The ambient context the wrappers set around the wrapped call is left out too.
- The concurrency of `Promise.all` in shutdown and the asynchronous suspension points are not modelled. A method's completion is a value, `Normal(v)` or `Threw(e)`.
- `isAsync` (src/internal.ts:33-35) is not modelled. Whether a method is async is given as its mode. A synchronous method that returns a rejected promise is not modelled.
- The regular-expression engine is not modelled. A pattern matcher is a test predicate; the default health pattern is written out as a predicate.
- Number conversion is left out. `Number()` is a parameter `parse`, which also decides what an empty value converts to.
- Reading `package.json`, `process.env` and `process.cwd()` is not modelled. They are parameters: the loaded manifest, an environment map, and a number parser.
- The diagnostics console logger and debug logging are left out; only the logger installation call is recorded.
- The UUID generator and the default service name are parameters.
- LoopBack dependency injection is modelled as a map of bindings. The middleware chain position, the interceptor's provider binding and the observer's tag are left out.
- The effects of `next` are not modelled beyond its outcome and whether it ended the response; `endsResponse` gives the latter as a parameter.
- The lodash merge's cloning of objects, and any aliasing of arrays between option layers, are not modelled.
- Utils.AddRequestIdToSafeFields: does not model that pushing onto the existing safe-fields array also changes the previously bound options object, because the model's options are values.
- `this` and the call arguments of decorated and intercepted methods are not modelled. Only the outcome of the call matters here.
- Thrown values are assumed to be `Error` objects: a completion's error always has a message. For a thrown `null` or `undefined`, the wrappers' and the interceptor's read of the message would itself throw a `TypeError`, and so would `setRequestIdInError` when an id resolves. That path is not modelled.
- Decorating an accessor is not modelled: a descriptor always holds a method. With tracing enabled, `@trace()` on an accessor would throw a `TypeError` at decoration time, because the descriptor has no value.
