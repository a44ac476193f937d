# grpcbrake in Dafny

A model of gobrake's gRPC server middleware (`grpc/grpcbrake.go`). The
middleware wraps every unary and streaming call. It begins a route metric,
runs the handler, and classifies a failure by mapping its gRPC status code to
an HTTP status class. It then reports the failure to Airbrake as a notice and
submits the metric. It never changes what the handler returned.

Modules:

- `Codes` (codes.dfy): the gRPC status-code vocabulary. A code is a 32-bit
  unsigned value. The seventeen canonical codes run from 0 (OK) to 16
  (Unauthenticated).
- `Classifier` (classifier.dfy): `grpcCodeToHTTP` as `CodeToHttp`. It is a
  closed table, and every other code maps to 500. `ExpectedTable` is the
  table the repository's test asserts. It serves as an independent reference.
- `Streams` (streams.dfy): call contexts and server streams.
  `wrappedServerStream` is the `Wrapped` constructor built by `Wrap`. Its
  `Context()` returns the substituted context. `Endpoint()` names the
  transport stream that every forwarded operation reaches.
- `Telemetry` (telemetry.dfy): the Airbrake collaborators: the
  package-level `gobrake.NewRouteMetric` and the notifier's `Notice`,
  `SendNoticeAsync` and `Routes.Notify`. All four are gathered in a
  `Notifier` class whose methods append events to its `log`: a metric begun,
  a notice queued, a metric submitted. `Valid()` says that every metric
  begun has been submitted and that notices never outnumber metrics. It
  holds only for a notifier that the interceptors alone use, between calls.
  A notice the application sends directly, or a call still in flight, breaks
  it. The interceptors accept any notifier and keep `Valid()` when it held
  before the call.
- `Interceptors` (interceptors.dfy): the closures returned by
  `UnaryServerInterceptor` and `StreamServerInterceptor`, as the methods
  `InterceptUnary` and `InterceptStream`. Both share the Exit phase `Exit`.
  Each method sets the metric's status step by step, just as the Go code
  does. Each is proved to append exactly `CallEvents(...)` to the log and to
  return the handler's own result. The lemmas about `CallEvents` and
  `MetricStatus` state what this means.

Behaviour the model keeps from the code:

- A non-nil error whose status code is OK submits its metric with class 200,
  and a notice is still sent for it (`MetricStatusMeaning`, `CallAccounting`).
- An error that carries no gRPC status gets class 500.

## Model

| member | source | states |
|---|---|---|
| Classifier.CodeToHttp | grpc/grpcbrake.go:93-132 | the class is always one of {200,400,401,403,404,409,429,499,500,501,503,504}; it is 200 exactly when the code is OK; every non-canonical code maps to 500 |
| Classifier.MatchesExpectedTable | grpc/grpcbrake_test.go:15-31 | the expected table lists the 17 canonical codes in order, and the classifier returns each row's class for that row's code |
| Classifier.Preimages | grpc/grpcbrake.go:94-131 | the mapping is not injective: 400 comes from InvalidArgument, FailedPrecondition and OutOfRange only; 409 from AlreadyExists and Aborted only; 500 from Unknown, Internal, DataLoss and every non-canonical code; each other class comes from exactly one code |
| Streams.Wrap | grpc/grpcbrake.go:82-89 | the wrapper reports the substituted context, and its forwarded operations reach the same transport stream as the wrapped one |
| Streams.ChainedWraps | grpc/grpcbrake.go:56-59 | however many interceptors wrap a stream in turn, the handler sees the outermost substitute context and messages still reach the original transport stream |
| Telemetry.Notifier.NewRouteMetric | grpc/grpcbrake.go:21 | the package-level gobrake.NewRouteMetric, placed on the notifier for its log: begins one metric for the verb and route, records it, and returns a tracking context derived from the inbound one |
| Telemetry.Notifier.NewNotice | grpc/grpcbrake.go:32 | assumed of the reporter, not proved: a new notice holds the error, the stack depth given, and the reporter's base context |
| Telemetry.Notifier.SendNoticeAsync | grpc/grpcbrake.go:35 | queues the notice as one event and changes nothing else |
| Telemetry.Notifier.NotifyRoutes | grpc/grpcbrake.go:38 | records exactly one submission of the metric under the given context; its failure result is not constrained |
| Interceptors.MetricStatusMeaning | grpc/grpcbrake.go:23-30 | the metric's class is 200 with no error, the code's class for an error carrying a status, and 500 for an error without one; it is 200 exactly when there is no error or the error's status is OK |
| Interceptors.TaggedNotice | grpc/grpcbrake.go:32-34 | the notice reports the handler's error with stack depth 3; its context has component = "grpc" and action = the full method; every other key keeps the reporter's value |
| Interceptors.CallAccounting | grpc/grpcbrake.go:21-38 | one call begins exactly one metric and submits exactly one; it queues exactly one notice if the handler failed and none otherwise; it starts with the metric's start and ends with its submission, so any notice comes before the submission |
| Interceptors.NoticeTagging | grpc/grpcbrake.go:32-35 | any notice a call queues exists only because the handler failed, and reports that error with component "grpc", action = the full method and depth 3 |
| Interceptors.CallKeepsValid | grpc/grpcbrake.go:21-38 | appending one call's events to a log in which begun and submitted metrics balance keeps them balanced, and notices still do not outnumber calls |
| Interceptors.Exit | grpc/grpcbrake.go:25-38 | on failure it queues the tagged notice and then submits the metric with the class given by MetricStatus; on success it only submits the metric, with class 200; a failed submission is discarded |
| Interceptors.InterceptUnary | grpc/grpcbrake.go:14-42 | the handler runs with the tracking context and the original request; the response and error returned are the handler's own; the log grows by exactly that call's events; any notifier is accepted, and one whose invariant held before the call still satisfies it afterwards |
| Interceptors.InterceptStream | grpc/grpcbrake.go:46-79 | the handler gets the original server and the stream wrapped with the tracking context derived from the stream's own context; its error is returned as it was; the log grows by exactly that call's events; any notifier is accepted, and one whose invariant held before the call still satisfies it afterwards |
| Interceptors.HandlerSeesTrackingContext | grpc/grpcbrake.go:53-62 | inside a streaming call the handler's stream reports the tracking context, which never equals the transport's context, while messages still reach the original stream |

## Left out

- The internals of gobrake's collaborators are not modelled: route timing, timestamps, payload serialisation and the HTTP transport. `NewRouteMetric`, `Notice`, `SendNoticeAsync` and `Routes.Notify` appear only as events in the notifier's log.
- `gobrake.NewRouteMetric` is a package-level function in Go and takes no notifier. Here it is a `Notifier` method, only so that its call sits in the same ordered log as the other collaborator calls.
- `NewRouteMetric` derives the tracking context in an unmodelled way. Here it is `Traced(parent, serial)`. That context differs from its parent and from every earlier tracking context begun through the same notifier. Two notifiers can hand out equal tracking contexts.
- `SendNoticeAsync` delivers notices asynchronously and fire-and-forget. Here, queueing the notice is one instantaneous event, and delivery is not modelled.
- `status.FromError` is abstracted as the optional code an `Error` carries.
- The second argument of `Notice` is an HTTP request, which is always nil here, so it is dropped.
- Handlers are pure Dafny functions. Any side effect a handler has, including on the notifier, is not modelled.
- `Telemetry.Notifier.NotifyRoutes`: the sink's failure result is arbitrary, because that outcome belongs to the sink. The interceptors ignore it.
- The stream methods forwarded by embedding (`SendMsg`, `RecvMsg`, `SetHeader`, `SendHeader`, `SetTrailer`) are not modelled one by one. They are represented by the single transport stream, `Endpoint()`, that all of them reach.
- `UnaryServerInfo.Server` is not modelled; the interceptors never read it.
- The interceptor constructors return closures that capture the notifier. Here, each closure is a method that takes the notifier as a parameter.
- Handler panics are not modelled, because a handler here is a total function. Neither Go closure defers or recovers. On a panic, the Go code has begun the metric but submits no metric and queues no notice. So "every call submits exactly one metric" holds only for handlers that return.
- Intercepted calls are modelled as atomic: one call's events form one contiguous block of the log. In a real server, calls that share a notifier run concurrently, and their begin, notice and submit events interleave. That interleaving is not captured.
- `examples/grpc/main.go` is a demonstration program (server setup and network I/O) and is not part of this model.
