/**
 * The unary and streaming server interceptors. Each call runs Entry (begin a
 * route metric), Handler (run the wrapped handler), Exit (classify a failure,
 * report it, submit the metric), and hands the handler's outcome back as it was.
 */
module Interceptors {
  import opened Wrappers
  import opened Codes
  import opened Classifier
  import opened Streams
  import opened Telemetry

  /** The verb label every route metric of this middleware carries. */
  const Verb := "POST"
  /** The value of the "component" key on every notice. */
  const Component := "grpc"
  /** Stack frames the reporter skips to reach the call site. */
  const NoticeDepth: nat := 3

  datatype UnaryServerInfo = UnaryServerInfo(fullMethod: string)
  datatype StreamServerInfo = StreamServerInfo(fullMethod: string, isClientStream: bool, isServerStream: bool)

  /** What a unary handler returns: a response and an error, either of which may be nil. */
  datatype UnaryResult<Resp> = UnaryResult(resp: Option<Resp>, err: Option<Error>)

  /** The status class a call's metric is submitted with, given the handler's error. */
  function MetricStatus(err: Option<Error>): int
  {
    match err
    case None => 200
    case Some(e) =>
      match e.status
      case None => 500
      case Some(code) => CodeToHttp(code)
  }

  /**
   * A successful call reports 200; a failed call reports its code's class, or
   * 500 when the error carries no status. A failure whose status is OK also
   * reports 200: it is the only failure that does.
   */
  lemma MetricStatusMeaning(err: Option<Error>)
    ensures MetricStatus(err) in HttpClasses
    ensures err.None? ==> MetricStatus(err) == 200
    ensures err.Some? && err.value.status.None? ==> MetricStatus(err) == 500
    ensures err.Some? && err.value.status.Some? ==> MetricStatus(err) == CodeToHttp(err.value.status.value)
    ensures MetricStatus(err) == 200 <==> err.None? || err.value.status == Some(OK)
  {
  }

  /** The notice for a failed call: the reporter's base context, tagged with component and route. */
  function TaggedNotice(base: map<string, string>, e: Error, route: string): (n: Notice)
    ensures n.error == e && n.stackDepth == NoticeDepth
    ensures "component" in n.context && n.context["component"] == Component
    ensures "action" in n.context && n.context["action"] == route
    ensures n.context.Keys == base.Keys + {"component", "action"}
    ensures forall k :: k in base && k != "component" && k != "action" ==> n.context[k] == base[k]
  {
    Notice(e, base["component" := Component]["action" := route], NoticeDepth)
  }

  /**
   * The collaborator calls one intercepted call makes, in order, given the
   * tracking context, the route, the handler's error and the reporter's base
   * notice context.
   */
  function CallEvents(tracking: Context, route: string, err: Option<Error>, base: map<string, string>): seq<Event>
  {
    [MetricStarted(tracking, Verb, route)]
    + (if err.Some? then [NoticeQueued(TaggedNotice(base, err.value, route))] else [])
    + [MetricSubmitted(tracking, RouteMetric(Verb, route, MetricStatus(err)))]
  }

  /**
   * Every call begins and submits exactly one metric, under the tracking
   * context; it queues exactly one notice if the handler failed and none
   * otherwise; the submission comes last, after the notice.
   */
  lemma {:induction false} CallAccounting(tracking: Context, route: string, err: Option<Error>, base: map<string, string>)
    ensures var ev := CallEvents(tracking, route, err, base);
      && Count(ev, Started) == 1
      && Count(ev, Submitted) == 1
      && Count(ev, Queued) == (if err.Some? then 1 else 0)
      && ev[0] == MetricStarted(tracking, Verb, route)
      && ev[|ev| - 1] == MetricSubmitted(tracking, RouteMetric(Verb, route, MetricStatus(err)))
  {
    var start := [MetricStarted(tracking, Verb, route)];
    var report := if err.Some? then [NoticeQueued(TaggedNotice(base, err.value, route))] else [];
    var submit := [MetricSubmitted(tracking, RouteMetric(Verb, route, MetricStatus(err)))];
    forall k: EventKind
      ensures Count(CallEvents(tracking, route, err, base), k)
           == Count(start, k) + Count(report, k) + Count(submit, k)
    {
      CountAppend(start, report, k);
      CountAppend(start + report, submit, k);
    }
    assert Count(start, Started) == 1 && Count(start, Queued) == 0 && Count(start, Submitted) == 0 by {
      assert start[1..] == [];
    }
    assert Count(submit, Started) == 0 && Count(submit, Queued) == 0 && Count(submit, Submitted) == 1 by {
      assert submit[1..] == [];
    }
    if err.Some? {
      assert report[1..] == [];
    }
  }

  /** The notice a failed call queues reports the handler's error, tagged with component "grpc" and the route. */
  lemma NoticeTagging(tracking: Context, route: string, err: Option<Error>, base: map<string, string>, i: nat)
    requires i < |CallEvents(tracking, route, err, base)|
    requires CallEvents(tracking, route, err, base)[i].NoticeQueued?
    ensures var n := CallEvents(tracking, route, err, base)[i].notice;
      && err.Some? && n.error == err.value && n.stackDepth == NoticeDepth
      && n.context["component"] == Component && n.context["action"] == route
  {
  }

  /**
   * An intercepted call keeps the notifier's invariant: if every metric begun
   * had been submitted before the call, the same holds after it.
   */
  lemma {:induction false} CallKeepsValid(log: seq<Event>, serial: nat, tracking: Context, route: string,
                                          err: Option<Error>, base: map<string, string>)
    requires Count(log, Started) == serial && Count(log, Submitted) == serial && Count(log, Queued) <= serial
    ensures var log' := log + CallEvents(tracking, route, err, base);
      Count(log', Started) == serial + 1 && Count(log', Submitted) == serial + 1 && Count(log', Queued) <= serial + 1
  {
    CallAccounting(tracking, route, err, base);
    CountAppend(log, CallEvents(tracking, route, err, base), Started);
    CountAppend(log, CallEvents(tracking, route, err, base), Submitted);
    CountAppend(log, CallEvents(tracking, route, err, base), Queued);
  }

  /**
   * Exit phase shared by both interceptors: classify a failure and report it,
   * then submit the metric; a failed submission is ignored.
   */
  method Exit(notifier: Notifier, tracking: Context, metric: RouteMetric, err: Option<Error>)
    requires metric.statusCode == 200
    modifies notifier
    ensures notifier.serial == old(notifier.serial)
    ensures notifier.log == old(notifier.log)
      + (if err.Some? then [NoticeQueued(TaggedNotice(notifier.noticeContext, err.value, metric.route))] else [])
      + [MetricSubmitted(tracking, metric.(statusCode := MetricStatus(err)))]
  {
    var metric := metric;
    if err.Some? {
      metric := metric.(statusCode := 500);
      var st := err.value.status;
      if st.Some? {
        metric := metric.(statusCode := CodeToHttp(st.value));
      }

      var notice := notifier.NewNotice(err.value, NoticeDepth);
      notice := notice.(context := notice.context["component" := Component]);
      notice := notice.(context := notice.context["action" := metric.route]);
      notifier.SendNoticeAsync(notice);
    }

    var _ := notifier.NotifyRoutes(tracking, metric);
  }

  /**
   * The closure UnaryServerInterceptor returns. The handler runs with the
   * tracking context and the original request, and its response and error
   * are returned as they were.
   */
  method InterceptUnary<Req, Resp>(notifier: Notifier, ctx: Context, req: Req, info: UnaryServerInfo,
                                   handler: (Context, Req) -> UnaryResult<Resp>)
    returns (resp: Option<Resp>, err: Option<Error>)
    modifies notifier
    ensures old(notifier.Valid()) ==> notifier.Valid()
    ensures var tracking := Traced(ctx, old(notifier.serial));
      && UnaryResult(resp, err) == handler(tracking, req)
      && notifier.serial == old(notifier.serial) + 1
      && notifier.log == old(notifier.log) + CallEvents(tracking, info.fullMethod, err, notifier.noticeContext)
  {
    ghost var log0, serial0, wasValid := notifier.log, notifier.serial, notifier.Valid();
    var tracking, metric := notifier.NewRouteMetric(ctx, Verb, info.fullMethod);

    metric := metric.(statusCode := 200);
    var result := handler(tracking, req);
    resp, err := result.resp, result.err;

    Exit(notifier, tracking, metric, err);
    assert notifier.log == log0 + CallEvents(tracking, info.fullMethod, err, notifier.noticeContext);
    if wasValid {
      CallKeepsValid(log0, serial0, tracking, info.fullMethod, err, notifier.noticeContext);
    }
  }

  /**
   * The closure StreamServerInterceptor returns. The handler gets the
   * original server and the stream wrapped with the tracking context, and its
   * error is returned as it was.
   */
  method InterceptStream<Srv>(notifier: Notifier, srv: Srv, stream: ServerStream, info: StreamServerInfo,
                              handler: (Srv, ServerStream) -> Option<Error>)
    returns (err: Option<Error>)
    modifies notifier
    ensures old(notifier.Valid()) ==> notifier.Valid()
    ensures var tracking := Traced(stream.Context(), old(notifier.serial));
      && err == handler(srv, Wrap(stream, tracking))
      && notifier.serial == old(notifier.serial) + 1
      && notifier.log == old(notifier.log) + CallEvents(tracking, info.fullMethod, err, notifier.noticeContext)
  {
    ghost var log0, serial0, wasValid := notifier.log, notifier.serial, notifier.Valid();
    var ctx := stream.Context();
    var tracking, metric := notifier.NewRouteMetric(ctx, Verb, info.fullMethod);

    var wrappedStream := Wrap(stream, tracking);

    metric := metric.(statusCode := 200);
    err := handler(srv, wrappedStream);

    Exit(notifier, tracking, metric, err);
    assert notifier.log == log0 + CallEvents(tracking, info.fullMethod, err, notifier.noticeContext);
    if wasValid {
      CallKeepsValid(log0, serial0, tracking, info.fullMethod, err, notifier.noticeContext);
    }
  }

  /**
   * Inside a streaming call the handler's stream reports the tracking context,
   * which is never the context the transport gave the call, while its messages
   * still go to the original stream.
   */
  lemma HandlerSeesTrackingContext(stream: ServerStream, serial: nat)
    ensures var tracking := Traced(stream.Context(), serial);
      && Wrap(stream, tracking).Context() == tracking
      && Wrap(stream, tracking).Context() != stream.Context()
      && Wrap(stream, tracking).Endpoint() == stream.Endpoint()
  {
  }
}
