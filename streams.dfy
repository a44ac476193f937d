/**
 * Call contexts and server streams, with the wrapper the streaming
 * interceptor puts around a stream so that the handler sees the tracking
 * context instead of the one the transport created.
 */
module Streams {

  /**
   * A call context: one the transport created for an incoming call, or one the
   * metric sink derived from a parent when it began a route metric (`serial`
   * numbers the metrics the sink has begun).
   */
  datatype Context = Incoming(id: nat) | Traced(parent: Context, serial: nat)

  /**
   * A server stream: the transport's own stream, or wrappedServerStream, which
   * embeds an inner stream and carries a substitute context.
   */
  datatype ServerStream =
    | Transport(id: nat, callContext: Context)
    | Wrapped(inner: ServerStream, ctx: Context)
  {
    /** The context a handler observes when it asks the stream for one. */
    function Context(): Context {
      match this
      case Transport(_, c) => c
      case Wrapped(_, c) => c
    }

    /** The transport stream that message, header and trailer operations reach. */
    function Endpoint(): nat {
      match this
      case Transport(id, _) => id
      case Wrapped(inner, _) => inner.Endpoint()
    }
  }

  /** Wrap `stream` so that its context reads as `ctx`; everything else goes to `stream`. */
  function Wrap(stream: ServerStream, ctx: Context): (w: ServerStream)
    ensures w.Context() == ctx
    ensures w.Endpoint() == stream.Endpoint()
  {
    Wrapped(stream, ctx)
  }

  /**
   * Interceptors chain: however many wrappers surround a stream, the handler
   * sees the outermost substitute context and its messages still reach the
   * same transport stream.
   */
  lemma {:induction false} ChainedWraps(stream: ServerStream, ctxs: seq<Context>)
    requires ctxs != []
    ensures WrapAll(stream, ctxs).Context() == ctxs[|ctxs| - 1]
    ensures WrapAll(stream, ctxs).Endpoint() == stream.Endpoint()
  {
    if |ctxs| > 1 {
      ChainedWraps(stream, ctxs[..|ctxs| - 1]);
    }
  }

  /** `stream` wrapped once per context, the first context innermost. */
  function WrapAll(stream: ServerStream, ctxs: seq<Context>): ServerStream
  {
    if ctxs == [] then stream else Wrap(WrapAll(stream, ctxs[..|ctxs| - 1]), ctxs[|ctxs| - 1])
  }
}
