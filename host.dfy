/** The parts of the host web framework this component touches: the outgoing
    response and the application's binding registry. Only what the tracing
    code reads or writes is kept. */
module Host {
  import opened Wrappers
  import opened Types

  /** An outgoing response: its header map and whether it has already been
      sent to the client (`writableEnded`). */
  class Response {
    var headers: map<string, string>
    var writableEnded: bool

    constructor (writableEnded: bool)
      ensures headers == map[] && this.writableEnded == writableEnded
    {
      headers := map[];
      this.writableEnded := writableEnded;
    }
  }

  /** The error writer's options (`ErrorWriterOptions`): the fields of an error
      that may be sent to clients, and the debug flag. */
  datatype ErrorWriterOptions = ErrorWriterOptions(debug: Option<bool>, safeFields: Option<seq<string>>)

  /** What a binding key of the application is bound to. */
  datatype Binding =
    | TracerValue(tracer: Tracer)
    | ActiveSpanProvider
    | LifeCycleObserver
    | GlobalInterceptor
    | ErrorWriter(options: ErrorWriterOptions)
    | MiddlewareProvider

  /** Binding keys used by the component. The three namespaced keys are the
      ones the framework derives from the registered class names. */
  const TracerKey: string := "tracing.tracer"
  const ActiveSpanKey: string := "tracing.activeSpan"
  const ObserverKey: string := "lifeCycleObservers.TracingObserver"
  const InterceptorKey: string := "globalInterceptors.TracingInterceptor"
  const ErrorWriterOptionsKey: string := "rest.errorWriterOptions"
  const MiddlewareKey: string := "providers.RequestIdMiddlewareProvider"

  /** The application's registry of bindings. */
  class Application {
    var bindings: map<string, Binding>

    constructor (bindings: map<string, Binding>)
      ensures this.bindings == bindings
    {
      this.bindings := bindings;
    }

    /** `getSync(ERROR_WRITER_OPTIONS, {optional: true})`. */
    function ErrorWriterOptionsOf(): Option<ErrorWriterOptions>
      reads this
    {
      if ErrorWriterOptionsKey in bindings && bindings[ErrorWriterOptionsKey].ErrorWriter?
      then Some(bindings[ErrorWriterOptionsKey].options)
      else None
    }
  }
}
