/** Constants of the component: the request-id names, the default ignored
    paths, the default options and the layer of options read from the
    environment. */
module Constants {
  import opened Wrappers
  import opened Types
  import opened Internal

  /** Name of the error field that carries the request id. */
  const RequestIdProperty: string := "requestId"

  /** Name of the response header that carries the request id. */
  const RequestIdHeader: string := "x-request-id"

  /** Incoming paths that are not traced or correlated by default. */
  const DefaultIgnoredPaths: seq<Matcher> :=
    [Exact("/ping"), Exact("/metrics"), Exact("/live"), Exact("/ready"), Pattern(HealthPattern)]

  /** The diagnostics level `DiagLogLevel.ALL` of the tracing API. */
  const DiagLogLevelAll: int := 9999

  /** Default Jaeger agent location. */
  const DefaultJaegerHost: string := "localhost"
  const DefaultJaegerPort: int := 6832

  /** `DEFAULT_TRACING_OPTIONS`, for the service details read at start-up. */
  function DefaultTracingOptions(details: ServiceDetails): (o: TracingOptions)
    ensures !o.enabled && o.instrumentations == []
    ensures o.serviceName == details.name && o.serviceVersion == details.version
    ensures o.propagationFormat == PropagationJaeger
    ensures o.jaeger.enabled && o.jaeger.spanProcessorType == SpanProcessorBatch
    ensures o.jaeger.host == Some(DefaultJaegerHost) && o.jaeger.port == Some(DefaultJaegerPort)
    ensures o.jaeger.endpoint == None
    ensures o.setRequestId && o.methodInvocations.enabled && o.http.enabled
    ensures !o.console.enabled && !o.diagnostics.enabled && o.diagnostics.logLevel == DiagLogLevelAll
    ensures o.http.ignoreIncomingPaths == DefaultIgnoredPaths
  {
    TracingOptions(
      enabled := false,
      serviceName := details.name,
      serviceVersion := details.version,
      propagationFormat := PropagationJaeger,
      setRequestId := true,
      jaeger := JaegerOptions(true, Some(DefaultJaegerHost), Some(DefaultJaegerPort), None, SpanProcessorBatch),
      console := ConsoleOptions(false),
      diagnostics := DiagnosticsOptions(false, DiagLogLevelAll),
      methodInvocations := MethodInvocationOptions(true),
      http := HttpOptions(true, DefaultIgnoredPaths),
      instrumentations := [])
  }

  /** `ENV_TRACING_CONFIG`: flags through the boolean reader, the Jaeger port
      and the log level through the number reader, every other leaf through the
      string reader. The environment never sets the lists. */
  function EnvTracingConfig(env: Env, parse: string -> Option<int>): (c: TracingConfig)
    ensures c.enabled == GetEnvBoolean(env, "TRACING_ENABLED")
    ensures c.serviceName == GetEnv(env, "TRACING_SERVICE_NAME")
    ensures c.serviceVersion == GetEnv(env, "TRACING_SERVICE_VERSION")
    ensures c.propagationFormat == GetEnv(env, "TRACING_PROPAGATION_FORMAT")
    ensures c.setRequestId == GetEnvBoolean(env, "TRACING_SET_REQUEST_ID")
    ensures c.jaeger.enabled == GetEnvBoolean(env, "TRACING_JAEGER_ENABLED")
    ensures c.jaeger.host == GetEnv(env, "TRACING_JAEGER_HOST")
    ensures c.jaeger.port == GetEnvNumber(env, "TRACING_JAEGER_PORT", parse)
    ensures c.jaeger.endpoint == GetEnv(env, "TRACING_JAEGER_ENDPOINT")
    ensures c.jaeger.spanProcessorType == GetEnv(env, "TRACING_JAEGER_SPAN_PROCESSOR")
    ensures c.console.enabled == GetEnvBoolean(env, "TRACING_CONSOLE_ENABLED")
    ensures c.diagnostics.enabled == GetEnvBoolean(env, "TRACING_DIAGNOSTICS_ENABLED")
    ensures c.diagnostics.logLevel == GetEnvNumber(env, "TRACING_DIAGNOSTICS_LOG_LEVEL", parse)
    ensures c.methodInvocations.enabled == GetEnvBoolean(env, "TRACING_METHOD_INVOCATIONS_ENABLED")
    ensures c.http.enabled == GetEnvBoolean(env, "TRACING_HTTP_ENABLED")
    ensures c.http.ignoreIncomingPaths == None && c.instrumentations == None
  {
    TracingConfig(
      enabled := GetEnvBoolean(env, "TRACING_ENABLED"),
      serviceName := GetEnv(env, "TRACING_SERVICE_NAME"),
      serviceVersion := GetEnv(env, "TRACING_SERVICE_VERSION"),
      propagationFormat := GetEnv(env, "TRACING_PROPAGATION_FORMAT"),
      setRequestId := GetEnvBoolean(env, "TRACING_SET_REQUEST_ID"),
      jaeger := JaegerConfig(
        GetEnvBoolean(env, "TRACING_JAEGER_ENABLED"),
        GetEnv(env, "TRACING_JAEGER_HOST"),
        GetEnvNumber(env, "TRACING_JAEGER_PORT", parse),
        GetEnv(env, "TRACING_JAEGER_ENDPOINT"),
        GetEnv(env, "TRACING_JAEGER_SPAN_PROCESSOR")),
      console := ConsoleConfig(GetEnvBoolean(env, "TRACING_CONSOLE_ENABLED")),
      diagnostics := DiagnosticsConfig(
        GetEnvBoolean(env, "TRACING_DIAGNOSTICS_ENABLED"),
        GetEnvNumber(env, "TRACING_DIAGNOSTICS_LOG_LEVEL", parse)),
      methodInvocations := MethodInvocationConfig(GetEnvBoolean(env, "TRACING_METHOD_INVOCATIONS_ENABLED")),
      http := HttpConfig(GetEnvBoolean(env, "TRACING_HTTP_ENABLED"), None),
      instrumentations := None)
  }

  /** With none of the variables set, the environment layer defines nothing. */
  lemma EmptyEnvironmentDefinesNothing(parse: string -> Option<int>)
    ensures EnvTracingConfig(map[], parse) == EmptyConfig
  {
  }

  /** A flag variable holding anything but "true" or "false" leaves the flag
      undefined rather than false. */
  lemma MalformedFlagIsUndefined(env: Env, parse: string -> Option<int>)
    requires "TRACING_ENABLED" in env && env["TRACING_ENABLED"] !in {"true", "false"}
    ensures EnvTracingConfig(env, parse).enabled == None
  {
  }

  /** The default list ignores "/ping" and health sub-paths but not "/test". */
  lemma DefaultIgnoredPathsExamples()
    ensures Ignored("/ping", DefaultIgnoredPaths)
    ensures Ignored("/health/live", DefaultIgnoredPaths)
    ensures !Ignored("/test", DefaultIgnoredPaths)
  {
    assert MatchesPath("/ping", DefaultIgnoredPaths[0]);
    assert HealthPattern("/health/live");
    assert MatchesPath("/health/live", DefaultIgnoredPaths[4]);
    assert !HealthPattern("/test") by {
      assert "/test"[1] != "/health"[1];
    }
  }
}
