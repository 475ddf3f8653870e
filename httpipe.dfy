/** The httpipe proxy pipeline: the per-call context, the two handler chains, the
    server that rewrites, forwards and relays, and the response constructor.
    The network transport is a parameter of ServeHTTP; everything else is modelled. */
module Httpipe {
  import opened Wrappers
  import opened Atomic
  import opened NetHttp

  /** The fields of a Context as a handler sees them at the moment it is called. */
  datatype ContextView = ContextView(
    request: Request,
    response: Option<Response>,
    error: Option<GoString>,
    body: seq<Byte>,
    session: int64)

  /** A request handler: given the request and the context, it returns a (possibly
      rewritten) request and, to short-circuit the upstream call, a response. A Go
      function adapted by RequestWrapper is exactly such a function. */
  type RequestHandler = (Request, ContextView) -> (Request, Option<Response>)

  /** A response handler: given a response (None for nil) and the context, it returns
      a response. ResponseWrapper adapts a Go function of this shape. */
  type ResponseHandler = (Option<Response>, ContextView) -> Option<Response>

  /** Context: the record threaded through one call of ServeHTTP. */
  class Context {
    var request: Request
    var response: Option<Response>
    var error: Option<GoString>
    var body: seq<Byte>
    var session: int64

    function View(): (v: ContextView)
      reads this
    {
      ContextView(request, response, error, body, session)
    }

    /** `&Context{Request: r, Session: s}`: every other field is zero. */
    constructor (request: Request, session: int64)
      ensures View() == ContextView(request, None, None, [], session)
    {
      this.request := request;
      this.session := session;
      response, error, body := None, None, [];
    }
  }

  /** The loop of HandleRequest from handler `hs[0]` on, where `last` is the request the
      loop holds so far. Every handler is given the original request `r`; the first
      one that returns a response ends the loop with its own result. */
  function RequestChainFrom(hs: seq<RequestHandler>, r: Request, c: ContextView, last: Request): (out: (Request, Option<Response>))
    ensures hs == [] ==> out == (last, None)
    ensures hs != [] ==> exists i | 0 <= i < |hs| :: out == hs[i](r, c)
    decreases |hs|
  {
    if hs == [] then (last, None)
    else
      var step := hs[0](r, c);
      if step.1.Some? then step else RequestChainFrom(hs[1..], r, c, step.0)
  }

  /** What HandleRequest returns for handlers `hs`, request `r` and context `c`. */
  function RequestChain(hs: seq<RequestHandler>, r: Request, c: ContextView): (out: (Request, Option<Response>))
    ensures hs == [] ==> out == (r, None)
    ensures hs != [] ==> exists i | 0 <= i < |hs| :: out == hs[i](r, c)
  {
    RequestChainFrom(hs, r, c, r)
  }

  /** The value of ctx.Response after HandleResponse has run the handlers `hs` on
      `orig`, starting from context `c`: each handler is given `orig` and the context
      whose response is what the handler before it returned. */
  function ResponseChain(hs: seq<ResponseHandler>, orig: Option<Response>, c: ContextView): (final: Option<Response>)
    ensures hs == [] ==> final == c.response
    ensures |hs| == 1 ==> final == hs[0](orig, c)
    decreases |hs|
  {
    if hs == [] then c.response
    else
      var n := |hs| - 1;
      hs[n](orig, c.(response := ResponseChain(hs[..n], orig, c)))
  }

  /** The upstream URL the inbound URL is rewritten to at the start of ServeHTTP: a copy
      of `upstream` that takes only the path, the raw query and the user information
      from `inbound`. */
  function RewriteURL(upstream: URL, inbound: URL): (u: URL)
    ensures u.path == inbound.path && u.rawQuery == inbound.rawQuery && u.user == inbound.user
    ensures u.scheme == upstream.scheme && u.host == upstream.host
    ensures u.schemeSpecific == upstream.schemeSpecific && u.rawPath == upstream.rawPath
    ensures u.forceQuery == upstream.forceQuery
    ensures u.fragment == upstream.fragment && u.rawFragment == upstream.rawFragment
  {
    upstream.(path := inbound.path, rawQuery := inbound.rawQuery, user := inbound.user)
  }

  /** The header map copyHeaders leaves in `dst`: after every old key is deleted, each
      value of `src` is added under its key, so a key whose value list is empty is
      never added. */
  function CopiedHeaders(src: Header): (h: Header)
    ensures forall k :: k in h <==> k in src && src[k] != []
    ensures forall k | k in h :: h[k] == src[k]
  {
    map k | k in src && src[k] != [] :: src[k]
  }

  /** copyHeaders(w.Header(), src): clears the writer's header map, then adds every
      value of `src`, key by key and in order. */
  method CopyHeaders(w: ResponseWriter, src: Header)
    modifies w
    ensures w.State() == old(w.State()).(header := CopiedHeaders(src))
  {
    var stale := w.header.Keys;
    while stale != {}
      invariant w.header.Keys == stale
      invariant w.status == old(w.status) && w.written == old(w.written)
      decreases stale
    {
      var k :| k in stale;
      w.header := HeaderDel(w.header, k);
      stale := stale - {k};
    }
    assert w.header == map[];
    var todo := src.Keys;
    while todo != {}
      invariant todo <= src.Keys
      invariant w.header == CopiedHeaders(src - todo)
      invariant w.status == old(w.status) && w.written == old(w.written)
      decreases todo
    {
      var k :| k in todo;
      var vs := src[k];
      ghost var before := w.header;
      assert k !in before;
      var j := 0;
      while j < |vs|
        invariant 0 <= j <= |vs|
        invariant w.header == if j == 0 then before else before[k := vs[..j]]
        invariant w.status == old(w.status) && w.written == old(w.written)
      {
        assert vs[..j + 1] == vs[..j] + [vs[j]];
        w.header := HeaderAdd(w.header, k, vs[j]);
        j := j + 1;
      }
      assert vs[..j] == vs;
      todo := todo - {k};
      assert w.header == CopiedHeaders(src - todo);
    }
    assert src - todo == src;
  }

  /** NewResponse(r, contentType, status, body): a response to `r` that carries `body`,
      the given status and only a Content-Type header. */
  function NewResponse(r: Request, contentType: GoString, status: int, body: GoString): (resp: Response)
    ensures resp.header.Keys == {"Content-Type"} && resp.header["Content-Type"] == [contentType]
    ensures resp.statusCode == status
    ensures resp.contentLength == |body| && resp.body == body
    ensures resp.request == Some(r) && resp.transferEncoding == r.transferEncoding
  {
    Response(status, HeaderAdd(map[], "Content-Type", contentType), body, |body|, r.transferEncoding, Some(r))
  }

  /** What one call of ServeHTTP leaves behind: the context at the end of the call, the
      request handed to the transport (None when no round trip was made) and what the
      client was sent. */
  datatype Served = Served(ctx: ContextView, sent: Option<Request>, writer: WriterState)

  /** The whole effect of ServeHTTP on inbound request `r`, for a server with upstream
      `upstream`, handler lists `reqHs` and `respHs` and session counter `counter`, a
      transport `transport`, and a writer in state `w`. */
  function Serve(upstream: URL, reqHs: seq<RequestHandler>, respHs: seq<ResponseHandler>, counter: int64,
                 r: Request, transport: Request -> Result<Response, GoString>, w: WriterState): (s: Served)
    // the rewrite and the session
    ensures s.ctx.request == r.(url := RewriteURL(upstream, r.url))
    ensures s.ctx.session == AddInt64(counter, 1)
    // exactly one of a short-circuit and a round trip, with the request the chain returned
    ensures var c := ContextView(s.ctx.request, None, None, [], s.ctx.session);
            var chain := RequestChain(reqHs, s.ctx.request, c);
            && (s.sent.None? <==> chain.1.Some?)
            && (s.sent.None? ==> s.ctx == c && s.writer == w)
            && (s.sent.Some? ==> s.sent.value == chain.0)
    // the round trip failed: the error is recorded and the client gets it with status 500
    ensures s.sent.Some? && transport(s.sent.value).Failure? ==>
            var e := transport(s.sent.value).error;
            && s.ctx.error == Some(e) && s.ctx.body == []
            && s.ctx.response == ResponseChain(respHs, None, s.ctx.(response := None))
            && s.writer.header == w.header["Content-Type" := ["text/plain; charset=utf-8"]]["X-Content-Type-Options" := ["nosniff"]]
            && s.writer.status == (if w.status.None? then Some(500) else w.status)
            && s.writer.written == w.written + e + "\n"
    // the round trip succeeded: the upstream response is relayed with its captured body
    ensures s.sent.Some? && transport(s.sent.value).Success? ==>
            var up := transport(s.sent.value).value;
            && s.ctx.error == None && s.ctx.body == up.body
            && s.ctx.response == ResponseChain(respHs, Some(up), s.ctx.(response := None))
            && (forall k :: k in s.writer.header <==> k in up.header && k != "Content-Length" && up.header[k] != [])
            && (forall k | k in s.writer.header :: s.writer.header[k] == up.header[k])
            && s.writer.status == (if w.status.None? then Some(up.statusCode) else w.status)
            && s.writer.written == w.written + up.body
  {
    var inbound := r.(url := RewriteURL(upstream, r.url));
    var c := ContextView(inbound, None, None, [], AddInt64(counter, 1));
    var chain := RequestChain(reqHs, inbound, c);
    if chain.1.Some? then Served(c, None, w)
    else match transport(chain.0)
      case Failure(e) =>
        var ce := c.(error := Some(e));
        Served(ce.(response := ResponseChain(respHs, None, ce)), Some(chain.0), ErrorWritten(w, e, 500))
      case Success(up) =>
        var cb := c.(body := up.body);
        var relayed := HeaderDel(up.header, "Content-Length");
        Served(cb.(response := ResponseChain(respHs, Some(up), cb)), Some(chain.0),
               w.(header := CopiedHeaders(relayed)).WithStatus(up.statusCode).WithBody(cb.body))
  }

  /** Server: the upstream, the two handler lists and the session counter. */
  class Server {
    var upstream: URL
    var requestHandlers: seq<RequestHandler>
    var responseHandlers: seq<ResponseHandler>
    var session: int64

    /** New, given the already parsed upstream URL. */
    constructor (upstream: URL)
      ensures this.upstream == upstream && requestHandlers == [] && responseHandlers == [] && session == 0
    {
      this.upstream := upstream;
      requestHandlers, responseHandlers, session := [], [], 0;
    }

    /** HandleRequest: runs the request handlers in order, each on the original `r`,
        and stops at the first one that returns a response. `invoked` counts the
        handlers that were called. */
    method HandleRequest(r: Request, ctx: Context) returns (req: Request, resp: Option<Response>, ghost invoked: nat)
      ensures (req, resp) == RequestChain(requestHandlers, r, ctx.View())
      ensures invoked <= |requestHandlers|
      ensures invoked == 0 ==> requestHandlers == [] && req == r && resp == None
      ensures invoked > 0 ==> (req, resp) == requestHandlers[invoked - 1](r, ctx.View())
      ensures forall j | 0 <= j < invoked - 1 :: requestHandlers[j](r, ctx.View()).1 == None
      ensures invoked < |requestHandlers| ==> resp.Some?
    {
      var hs := requestHandlers;
      req, resp := r, None;
      invoked := 0;
      var i := 0;
      while i < |hs|
        invariant 0 <= i <= |hs| && invoked == i && resp == None
        invariant RequestChainFrom(hs[i..], r, ctx.View(), req) == RequestChain(hs, r, ctx.View())
        invariant i == 0 ==> req == r
        invariant i > 0 ==> (req, resp) == hs[i - 1](r, ctx.View())
        invariant forall j | 0 <= j < i :: hs[j](r, ctx.View()).1 == None
      {
        var out := hs[i](r, ctx.View());
        req, resp := out.0, out.1;
        invoked := i + 1;
        if resp.Some? {
          break;
        }
        i := i + 1;
      }
    }

    /** HandleResponse: runs every response handler in order, each on `orig`, storing
        each result in ctx.Response, and returns `orig`. `calls` records the arguments
        each handler was given. */
    method HandleResponse(orig: Option<Response>, ctx: Context) returns (resp: Option<Response>, ghost calls: seq<(Option<Response>, ContextView)>)
      modifies ctx
      ensures resp == orig
      ensures ctx.View() == old(ctx.View()).(response := ResponseChain(responseHandlers, orig, old(ctx.View())))
      ensures |calls| == |responseHandlers|
      ensures forall k | 0 <= k < |calls| ::
                calls[k] == (orig, old(ctx.View()).(response := ResponseChain(responseHandlers[..k], orig, old(ctx.View()))))
    {
      var hs := responseHandlers;
      ghost var c := ctx.View();
      resp := orig;
      calls := [];
      var i := 0;
      while i < |hs|
        invariant 0 <= i <= |hs|
        invariant ctx.View() == c.(response := ResponseChain(hs[..i], orig, c))
        invariant |calls| == i
        invariant forall k | 0 <= k < i :: calls[k] == (orig, c.(response := ResponseChain(hs[..k], orig, c)))
      {
        calls := calls + [(resp, ctx.View())];
        ctx.response := hs[i](resp, ctx.View());
        assert hs[..i + 1][..i] == hs[..i];
        i := i + 1;
      }
      assert hs[..i] == hs;
    }

    /** ServeHTTP: rewrites the request onto the upstream, assigns the next session,
        runs the request handlers and, unless one of them answered, makes the round
        trip through `transport` and relays the result to `w`. `ctx` is the call's
        context; `sent` is the request given to the transport, None if none was. */
    method ServeHTTP(w: ResponseWriter, r: Request, transport: Request -> Result<Response, GoString>)
      returns (ghost ctx: Context, ghost sent: Option<Request>)
      modifies this`session, w
      ensures fresh(ctx)
      ensures session == AddInt64(old(session), 1) && ctx.session == session
      ensures Served(ctx.View(), sent, w.State())
              == Serve(upstream, requestHandlers, responseHandlers, old(session), r, transport, old(w.State()))
    {
      var inbound := r.(url := RewriteURL(upstream, r.url));
      session := AddInt64(session, 1);
      var c := new Context(inbound, session);
      ctx, sent := c, None;
      var req: Request, resp: Option<Response>;
      ghost var invoked: nat;
      req, resp, invoked := HandleRequest(inbound, c);
      ghost var calls: seq<(Option<Response>, ContextView)>;
      if resp == None {
        var roundTrip := transport(req);
        sent := Some(req);
        var upstreamResp: Response;
        match roundTrip {
          case Failure(e) =>
            c.error := Some(e);
            var handled;
            handled, calls := HandleResponse(None, c);
            match handled {
              case None =>
                Error(w, e, 500);
                return;
              case Some(h) =>
                upstreamResp := h;
            }
          case Success(up) =>
            upstreamResp := up;
        }
        // HandleResponse(nil, ctx) returns nil, so only a successful round trip gets here
        assert roundTrip == Success(upstreamResp);
        c.body := upstreamResp.body;
        var relayed;
        relayed, calls := HandleResponse(Some(upstreamResp), c);
        var out := relayed.value;
        out := out.(header := HeaderDel(out.header, "Content-Length"));
        CopyHeaders(w, out.header);
        w.WriteHeader(out.statusCode);
        w.Write(c.body);
      }
    }
  }

  /** The session numbers handed out by `n` successive calls of ServeHTTP on a server
      whose counter starts at `counter`. */
  function Sessions(counter: int64, n: nat): (ids: seq<int64>)
    ensures |ids| == n
    ensures n > 0 ==> ids[0] == AddInt64(counter, 1)
    ensures forall i | 0 < i < n :: ids[i] == AddInt64(ids[i - 1], 1)
    decreases n
  {
    if n == 0 then [] else [AddInt64(counter, 1)] + Sessions(AddInt64(counter, 1), n - 1)
  }
}
