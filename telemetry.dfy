/**
 * The Airbrake collaborators the interceptors call: the route-metric sink
 * (the package-level gobrake.NewRouteMetric, and Routes.Notify) and the error
 * reporter (Notice, SendNoticeAsync). NewRouteMetric takes no notifier in Go;
 * it is a Notifier method here so that its call sits in the same ordered log.
 * Their internals are not modelled; each call is recorded, in order, as an
 * event in the notifier's log.
 */
module Telemetry {
  import opened Wrappers
  import opened Codes
  import opened Streams

  /**
   * An error returned by a handler. `status` is what status.FromError finds
   * on it: the gRPC code it carries, or None for an error without a status.
   */
  datatype Error = Error(message: string, status: Option<Code>)

  /** The performance record of one call: verb label, route, status class. */
  datatype RouteMetric = RouteMetric(verb: string, route: string, statusCode: int)

  /** An error report: the error, its string-keyed context, and the stack frames to skip. */
  datatype Notice = Notice(error: Error, context: map<string, string>, stackDepth: nat)

  datatype Event =
    | MetricStarted(ctx: Context, verb: string, route: string)
    | NoticeQueued(notice: Notice)
    | MetricSubmitted(ctx: Context, metric: RouteMetric)

  datatype EventKind = Started | Queued | Submitted

  function Kind(e: Event): EventKind {
    match e
    case MetricStarted(_, _, _) => Started
    case NoticeQueued(_) => Queued
    case MetricSubmitted(_, _) => Submitted
  }

  /** The number of events of kind `k` in `log`. */
  function Count(log: seq<Event>, k: EventKind): nat
  {
    if log == [] then 0 else (if Kind(log[0]) == k then 1 else 0) + Count(log[1..], k)
  }

  lemma {:induction false} CountAppend(a: seq<Event>, b: seq<Event>, k: EventKind)
    ensures Count(a + b, k) == Count(a, k) + Count(b, k)
  {
    if a == [] {
      assert a + b == b;
    } else {
      assert (a + b)[1..] == a[1..] + b;
      CountAppend(a[1..], b, k);
    }
  }

  class Notifier {
    /** Every collaborator call made so far, oldest first. */
    var log: seq<Event>
    /** How many route metrics have been begun through this notifier; numbers the next tracking context. */
    var serial: nat
    /** The context the reporter puts on every new notice before the caller adds to it. */
    const noticeContext: map<string, string>

    /**
     * Every metric begun has been submitted, and there have been no more
     * notices than metrics. This holds of a notifier that only the
     * interceptors use, between calls; a notice the application sends
     * directly, or a call still in flight, breaks it.
     */
    ghost predicate Valid()
      reads this
    {
      && Count(log, Started) == serial
      && Count(log, Submitted) == serial
      && Count(log, Queued) <= serial
    }

    constructor (noticeContext: map<string, string>)
      ensures Valid()
      ensures log == [] && serial == 0 && this.noticeContext == noticeContext
    {
      log := [];
      serial := 0;
      this.noticeContext := noticeContext;
    }

    /**
     * gobrake.NewRouteMetric: begin timing a route and derive the tracking
     * context that carries the metric. The status class starts at Go's zero value.
     */
    method NewRouteMetric(ctx: Context, verb: string, route: string) returns (tracking: Context, metric: RouteMetric)
      modifies this
      ensures tracking == Traced(ctx, old(serial))
      ensures metric == RouteMetric(verb, route, 0)
      ensures serial == old(serial) + 1
      ensures log == old(log) + [MetricStarted(tracking, verb, route)]
    {
      tracking := Traced(ctx, serial);
      metric := RouteMetric(verb, route, 0);
      log := log + [MetricStarted(tracking, verb, route)];
      serial := serial + 1;
    }

    /** Notifier.Notice: a fresh report of `err` carrying the reporter's base context. */
    function NewNotice(err: Error, depth: nat): (n: Notice)
      ensures n.error == err && n.stackDepth == depth && n.context == noticeContext
    {
      Notice(err, noticeContext, depth)
    }

    /** Notifier.SendNoticeAsync: hand the report over for delivery; returns at once. */
    method SendNoticeAsync(notice: Notice)
      modifies this
      ensures serial == old(serial)
      ensures log == old(log) + [NoticeQueued(notice)]
    {
      log := log + [NoticeQueued(notice)];
    }

    /**
     * Routes.Notify: submit a finished metric. Whether the sink accepts it is
     * up to the sink, so `failed` is left unconstrained.
     */
    method NotifyRoutes(ctx: Context, metric: RouteMetric) returns (failed: bool)
      modifies this
      ensures serial == old(serial)
      ensures log == old(log) + [MetricSubmitted(ctx, metric)]
    {
      log := log + [MetricSubmitted(ctx, metric)];
      failed :| true;
    }
  }
}
