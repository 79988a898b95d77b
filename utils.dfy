/** Request-id correlation and configuration merging. The options in force
    (the live `tracingOptions`) and the span bound to the ambient context are
    passed in explicitly. */
module Utils {
  import opened Wrappers
  import opened Types
  import opened Host
  import opened Constants

  /** The padding a 64-bit trace id carries when widened to 128 bits. */
  const ZeroPadding: string := "0000000000000000"

  lemma ZeroPaddingIsSixteenZeros()
    ensures |ZeroPadding| == 16 && forall i | 0 <= i < 16 :: ZeroPadding[i] == '0'
  {
  }

  /** `removeZeroPadding`: drops one leading run of sixteen zeros, if present. */
  function RemoveZeroPadding(traceId: string): (r: string)
    ensures ZeroPadding <= traceId ==> traceId == ZeroPadding + r
    ensures !(ZeroPadding <= traceId) ==> r == traceId
  {
    if ZeroPadding <= traceId then traceId[|ZeroPadding|..] else traceId
  }

  /** A padded id loses exactly its padding. */
  lemma RemovePadding(suffix: string)
    ensures RemoveZeroPadding(ZeroPadding + suffix) == suffix
  {
    assert ZeroPadding <= ZeroPadding + suffix;
  }

  /** Only one padding is removed, never repeatedly. */
  lemma RemovePaddingOnce(suffix: string)
    ensures RemoveZeroPadding(ZeroPadding + ZeroPadding + suffix) == ZeroPadding + suffix
  {
    assert ZeroPadding + ZeroPadding + suffix == ZeroPadding + (ZeroPadding + suffix);
    RemovePadding(ZeroPadding + suffix);
  }

  // ---------------------------------------------------------------------------
  // Configuration merging

  /** How the deep merge combines a list with the list of a later layer: it
      merges them index by index, so a later list overwrites the leading
      entries and the earlier list's surplus entries remain. */
  function MergeList<T>(dest: seq<T>, src: Option<seq<T>>): (r: seq<T>)
    ensures src.None? ==> r == dest
    ensures src.Some? ==> src.value <= r
    ensures src.Some? ==> |r| == if |src.value| < |dest| then |dest| else |src.value|
    ensures src.Some? ==> forall i | |src.value| <= i < |dest| :: r[i] == dest[i]
  {
    match src
    case None => dest
    case Some(s) => if |s| < |dest| then s + dest[|s|..] else s
  }

  /** One layer of the deep merge: every leaf `c` defines replaces the one in `o`. */
  function Overlay(o: TracingOptions, c: TracingConfig): (r: TracingOptions)
    ensures c.enabled.Some? ==> r.enabled == c.enabled.value
    ensures c.enabled.None? ==> r.enabled == o.enabled
    ensures c.instrumentations.None? ==> r.instrumentations == o.instrumentations
    ensures c.http.ignoreIncomingPaths.None? ==> r.http.ignoreIncomingPaths == o.http.ignoreIncomingPaths
  {
    o.(
      enabled := c.enabled.GetOr(o.enabled),
      serviceName := c.serviceName.GetOr(o.serviceName),
      serviceVersion := if c.serviceVersion.Some? then c.serviceVersion else o.serviceVersion,
      propagationFormat := c.propagationFormat.GetOr(o.propagationFormat),
      setRequestId := c.setRequestId.GetOr(o.setRequestId),
      jaeger := JaegerOptions(
        c.jaeger.enabled.GetOr(o.jaeger.enabled),
        if c.jaeger.host.Some? then c.jaeger.host else o.jaeger.host,
        if c.jaeger.port.Some? then c.jaeger.port else o.jaeger.port,
        if c.jaeger.endpoint.Some? then c.jaeger.endpoint else o.jaeger.endpoint,
        c.jaeger.spanProcessorType.GetOr(o.jaeger.spanProcessorType)),
      console := ConsoleOptions(c.console.enabled.GetOr(o.console.enabled)),
      diagnostics := DiagnosticsOptions(
        c.diagnostics.enabled.GetOr(o.diagnostics.enabled),
        c.diagnostics.logLevel.GetOr(o.diagnostics.logLevel)),
      methodInvocations := MethodInvocationOptions(c.methodInvocations.enabled.GetOr(o.methodInvocations.enabled)),
      http := HttpOptions(
        c.http.enabled.GetOr(o.http.enabled),
        MergeList(o.http.ignoreIncomingPaths, c.http.ignoreIncomingPaths)),
      instrumentations := MergeList(o.instrumentations, c.instrumentations))
  }

  /** `mergeTracingConfig`: the defaults, then the caller's configuration,
      then the environment layer. */
  function MergeTracingConfig(defaults: TracingOptions, config: TracingConfig, env: TracingConfig): (r: TracingOptions)
    ensures config == EmptyConfig && env == EmptyConfig ==> r == defaults
    ensures env.enabled.Some? ==> r.enabled == env.enabled.value
    ensures env.enabled.None? && config.enabled.Some? ==> r.enabled == config.enabled.value
  {
    Overlay(Overlay(defaults, config), env)
  }

  /** Precedence of every scalar leaf: environment over caller configuration
      over defaults; an undefined leaf never overrides. Lists are only ever set
      by the caller and are merged index by index into the defaults. */
  lemma MergePrecedence(d: TracingOptions, c: TracingConfig, e: TracingConfig)
    requires e.http.ignoreIncomingPaths.None? && e.instrumentations.None?
    ensures var r := MergeTracingConfig(d, c, e);
      && r.enabled == e.enabled.GetOr(c.enabled.GetOr(d.enabled))
      && r.serviceName == e.serviceName.GetOr(c.serviceName.GetOr(d.serviceName))
      && r.serviceVersion == (if e.serviceVersion.Some? then e.serviceVersion
                              else if c.serviceVersion.Some? then c.serviceVersion else d.serviceVersion)
      && r.propagationFormat == e.propagationFormat.GetOr(c.propagationFormat.GetOr(d.propagationFormat))
      && r.setRequestId == e.setRequestId.GetOr(c.setRequestId.GetOr(d.setRequestId))
      && r.jaeger.enabled == e.jaeger.enabled.GetOr(c.jaeger.enabled.GetOr(d.jaeger.enabled))
      && r.jaeger.host == (if e.jaeger.host.Some? then e.jaeger.host
                           else if c.jaeger.host.Some? then c.jaeger.host else d.jaeger.host)
      && r.jaeger.port == (if e.jaeger.port.Some? then e.jaeger.port
                           else if c.jaeger.port.Some? then c.jaeger.port else d.jaeger.port)
      && r.jaeger.endpoint == (if e.jaeger.endpoint.Some? then e.jaeger.endpoint
                               else if c.jaeger.endpoint.Some? then c.jaeger.endpoint else d.jaeger.endpoint)
      && r.jaeger.spanProcessorType ==
           e.jaeger.spanProcessorType.GetOr(c.jaeger.spanProcessorType.GetOr(d.jaeger.spanProcessorType))
      && r.console.enabled == e.console.enabled.GetOr(c.console.enabled.GetOr(d.console.enabled))
      && r.diagnostics.enabled == e.diagnostics.enabled.GetOr(c.diagnostics.enabled.GetOr(d.diagnostics.enabled))
      && r.diagnostics.logLevel == e.diagnostics.logLevel.GetOr(c.diagnostics.logLevel.GetOr(d.diagnostics.logLevel))
      && r.methodInvocations.enabled ==
           e.methodInvocations.enabled.GetOr(c.methodInvocations.enabled.GetOr(d.methodInvocations.enabled))
      && r.http.enabled == e.http.enabled.GetOr(c.http.enabled.GetOr(d.http.enabled))
      && r.http.ignoreIncomingPaths == MergeList(d.http.ignoreIncomingPaths, c.http.ignoreIncomingPaths)
      && r.instrumentations == MergeList(d.instrumentations, c.instrumentations)
  {
  }

  /** The later of two list layers, merged onto the earlier one. */
  function CombineLists<T>(first: Option<seq<T>>, second: Option<seq<T>>): Option<seq<T>>
  {
    if first.None? then second else Some(MergeList(first.value, second))
  }

  /** Merging list layers one at a time is the same as merging their
      combination once: the outcome depends only on the order of the layers. */
  lemma {:induction false} MergeListLayers<T>(d: seq<T>, a: Option<seq<T>>, b: Option<seq<T>>)
    ensures MergeList(MergeList(d, a), b) == MergeList(d, CombineLists(a, b))
  {
    if a.Some? && b.Some? {
      var x, y := a.value, b.value;
      var lhs := MergeList(MergeList(d, a), b);
      var rhs := MergeList(d, CombineLists(a, b));
      var xy := MergeList(x, b);
      assert |lhs| == |rhs|;
      forall i | 0 <= i < |lhs|
        ensures lhs[i] == rhs[i]
      {
        if i < |y| {
          assert lhs[i] == y[i];
          assert xy[i] == y[i];
        } else if i < |x| {
          assert xy[i] == x[i];
        }
      }
    }
  }

  /** A caller list at least as long as the default replaces it outright;
      a shorter one only overwrites its leading entries: `["/foo"]` over the
      default ignored paths keeps "/metrics", "/live", "/ready" and the health
      pattern. */
  lemma CallerListMergedIntoDefaults(paths: seq<Matcher>)
    ensures |paths| >= |DefaultIgnoredPaths| ==> MergeList(DefaultIgnoredPaths, Some(paths)) == paths
    ensures paths == [Exact("/foo")] ==>
      MergeList(DefaultIgnoredPaths, Some(paths)) == [Exact("/foo")] + DefaultIgnoredPaths[1..]
  {
  }

  // ---------------------------------------------------------------------------
  // Request id

  /** `getRequestId`: the given trace id if there is one (even an empty one),
      otherwise the trace id of the span bound to the ambient context. */
  function GetRequestId(traceId: Option<string>, active: Option<Span>): (r: Option<string>)
    ensures traceId.Some? ==> r == traceId
    ensures traceId.None? ==> (r.Some? <==> active.Some?)
    ensures traceId.None? && active.Some? ==> r == Some(active.value.traceId)
  {
    if traceId.Some? then traceId
    else if active.Some? then Some(active.value.traceId)
    else None
  }

  /** The request id the setters write: none when tracing or correlation is
      off, or when no non-empty id resolves; otherwise the resolved id without
      its padding. */
  function RequestIdToSet(options: TracingOptions, traceId: Option<string>, active: Option<Span>): (r: Option<string>)
    ensures !options.enabled || !options.setRequestId ==> r == None
    ensures var id := GetRequestId(traceId, active);
      r.Some? <==> options.enabled && options.setRequestId && id.Some? && id.value != ""
    ensures r.Some? ==> r.value == RemoveZeroPadding(GetRequestId(traceId, active).value)
  {
    if !options.enabled || !options.setRequestId then None
    else
      var id := GetRequestId(traceId, active);
      if id.Some? && id.value != "" then Some(RemoveZeroPadding(id.value)) else None
  }

  /** `setRequestIdInError`: writes the normalised id into the error, replacing
      any earlier one, or leaves the error untouched. */
  method SetRequestIdInError(options: TracingOptions, error: Error, traceId: Option<string>, active: Option<Span>)
    modifies error
    ensures var id := RequestIdToSet(options, traceId, active);
      error.requestId == if id.Some? then id else old(error.requestId)
  {
    if !options.enabled || !options.setRequestId {
      return;
    }
    var requestId := GetRequestId(traceId, active);
    if requestId.Some? && requestId.value != "" {
      error.requestId := Some(RemoveZeroPadding(requestId.value));
    }
  }

  /** `setRequestIdInResponse`: sets the request-id header unless correlation
      is off, the response was already sent, or no id resolves. */
  method SetRequestIdInResponse(options: TracingOptions, response: Response, traceId: Option<string>, active: Option<Span>)
    modifies response
    ensures response.writableEnded == old(response.writableEnded)
    ensures var id := RequestIdToSet(options, traceId, active);
      response.headers ==
        if !old(response.writableEnded) && id.Some? then old(response.headers)[RequestIdHeader := id.value]
        else old(response.headers)
  {
    if !options.enabled || !options.setRequestId {
      return;
    }
    if response.writableEnded {
      return;
    }
    var requestId := GetRequestId(traceId, active);
    if requestId.Some? && requestId.value != "" {
      response.headers := response.headers[RequestIdHeader := RemoveZeroPadding(requestId.value)];
    }
  }

  /** The error writer options after adding the request-id field: the existing
      safe fields followed by `requestId`, other options kept. */
  function WithRequestIdSafeField(existing: Option<ErrorWriterOptions>): (r: ErrorWriterOptions)
    ensures r.safeFields.Some?
    ensures var before := if existing.Some? && existing.value.safeFields.Some? then existing.value.safeFields.value else [];
      r.safeFields.value == before + [RequestIdProperty]
    ensures r.debug == if existing.Some? then existing.value.debug else None
  {
    match existing
    case None => ErrorWriterOptions(None, Some([RequestIdProperty]))
    case Some(o) => o.(safeFields := Some(o.safeFields.GetOr([]) + [RequestIdProperty]))
  }

  /** `addRequestIdToSafeFields`: rebinds the error writer options with
      `requestId` appended to the safe fields. */
  method AddRequestIdToSafeFields(app: Application)
    modifies app
    ensures app.bindings == old(app.bindings)[ErrorWriterOptionsKey := ErrorWriter(WithRequestIdSafeField(old(app.ErrorWriterOptionsOf())))]
  {
    var errorWriterOptions := app.ErrorWriterOptionsOf();
    var safeFields := if errorWriterOptions.Some? then errorWriterOptions.value.safeFields.GetOr([]) else [];
    safeFields := safeFields + [RequestIdProperty];
    var rebound := if errorWriterOptions.Some? then errorWriterOptions.value.(safeFields := Some(safeFields))
                   else ErrorWriterOptions(None, Some(safeFields));
    app.bindings := app.bindings[ErrorWriterOptionsKey := ErrorWriter(rebound)];
  }

  /** Adding the field to options `{debug: true, safeFields: ["test"]}` keeps
      the debug flag and the existing field. */
  lemma SafeFieldsKeepExisting()
    ensures WithRequestIdSafeField(Some(ErrorWriterOptions(Some(true), Some(["test"])))) ==
            ErrorWriterOptions(Some(true), Some(["test", RequestIdProperty]))
  {
    assert ["test"] + [RequestIdProperty] == ["test", RequestIdProperty];
  }
}
