/** Properties of the pipeline that relate several calls or hold for all inputs. */
module HttpipeLemmas {
  import opened Wrappers
  import opened Atomic
  import opened NetHttp
  import opened Httpipe

  // ---------------------------------------------------------------------------
  // The request-handler chain

  /** The loop of HandleRequest, continued from any point where no handler has
      answered yet, ends with the first handler that returns a response. */
  lemma {:induction false} RequestChainFromStopsAt(hs: seq<RequestHandler>, r: Request, c: ContextView, last: Request, i: nat)
    requires i < |hs| && hs[i](r, c).1.Some?
    requires forall j | 0 <= j < i :: hs[j](r, c).1 == None
    ensures RequestChainFrom(hs, r, c, last) == hs[i](r, c)
    decreases i
  {
    if i > 0 {
      RequestChainFromStopsAt(hs[1..], r, c, hs[0](r, c).0, i - 1);
    }
  }

  /** The loop of HandleRequest, when no handler answers, ends with the request the
      last handler returned (or with `last` if there is no handler). */
  lemma {:induction false} RequestChainFromRunsThrough(hs: seq<RequestHandler>, r: Request, c: ContextView, last: Request)
    requires forall j | 0 <= j < |hs| :: hs[j](r, c).1 == None
    ensures RequestChainFrom(hs, r, c, last) == (if hs == [] then last else hs[|hs| - 1](r, c).0, None)
    decreases |hs|
  {
    if hs != [] {
      RequestChainFromRunsThrough(hs[1..], r, c, hs[0](r, c).0);
    }
  }

  /** The first handler that returns a response wins: HandleRequest returns exactly
      that handler's request and response. */
  lemma RequestChainShortCircuits(hs: seq<RequestHandler>, r: Request, c: ContextView, i: nat)
    requires i < |hs| && hs[i](r, c).1.Some?
    requires forall j | 0 <= j < i :: hs[j](r, c).1 == None
    ensures RequestChain(hs, r, c) == hs[i](r, c)
  {
    RequestChainFromStopsAt(hs, r, c, r, i);
  }

  /** When no handler returns a response, HandleRequest returns the request of the LAST
      handler and no response; with no handlers it returns `r` unchanged. */
  lemma RequestChainRunsThrough(hs: seq<RequestHandler>, r: Request, c: ContextView)
    requires forall j | 0 <= j < |hs| :: hs[j](r, c).1 == None
    ensures RequestChain(hs, r, c) == (if hs == [] then r else hs[|hs| - 1](r, c).0, None)
  {
    RequestChainFromRunsThrough(hs, r, c, r);
  }

  /** HandleRequest returns a response if and only if some handler returns one. */
  lemma {:induction false} RequestChainAnswersIff(hs: seq<RequestHandler>, r: Request, c: ContextView, last: Request)
    ensures RequestChainFrom(hs, r, c, last).1.Some? <==> exists j | 0 <= j < |hs| :: hs[j](r, c).1.Some?
    decreases |hs|
  {
    if hs != [] {
      RequestChainAnswersIff(hs[1..], r, c, hs[0](r, c).0);
      if hs[0](r, c).1.None? {
        if exists j | 0 <= j < |hs| :: hs[j](r, c).1.Some? {
          var j :| 0 <= j < |hs| && hs[j](r, c).1.Some?;
          assert hs[1..][j - 1] == hs[j];
        }
        if exists j | 0 <= j < |hs| - 1 :: hs[1..][j](r, c).1.Some? {
          var j :| 0 <= j < |hs| - 1 && hs[1..][j](r, c).1.Some?;
          assert hs[j + 1] == hs[1..][j];
        }
      }
    }
  }

  /** Handlers registered after one that answers are never consulted: appending any
      handlers changes nothing. */
  lemma {:induction false} RequestChainIgnoresLater(hs: seq<RequestHandler>, tail: seq<RequestHandler>, r: Request, c: ContextView, last: Request, i: nat)
    requires i < |hs| && hs[i](r, c).1.Some?
    ensures RequestChainFrom(hs + tail, r, c, last) == RequestChainFrom(hs, r, c, last)
    decreases |hs|
  {
    if hs[0](r, c).1.None? {
      assert (hs + tail)[1..] == hs[1..] + tail;
      RequestChainIgnoresLater(hs[1..], tail, r, c, hs[0](r, c).0, i - 1);
    }
  }

  // ---------------------------------------------------------------------------
  // The response-handler chain

  /** Running two lists of response handlers one after the other is running their
      concatenation, with ctx.Response carried from the first into the second. */
  lemma {:induction false} ResponseChainAppend(hs1: seq<ResponseHandler>, hs2: seq<ResponseHandler>, orig: Option<Response>, c: ContextView)
    ensures ResponseChain(hs1 + hs2, orig, c) == ResponseChain(hs2, orig, c.(response := ResponseChain(hs1, orig, c)))
    decreases |hs2|
  {
    if hs2 == [] {
      assert hs1 + hs2 == hs1;
    } else {
      var n := |hs2| - 1;
      assert (hs1 + hs2)[..|hs1| + n] == hs1 + hs2[..n];
      ResponseChainAppend(hs1, hs2[..n], orig, c);
    }
  }

  /** A response handler that returns nil on its call erases everything before it:
      the final ctx.Response is what the later handlers make of a nil ctx.Response,
      whatever the earlier handlers returned and whatever the context held at the start. */
  lemma ResponseChainNilClobbers(hs: seq<ResponseHandler>, orig: Option<Response>, c: ContextView, k: nat)
    requires k < |hs|
    requires hs[k](orig, c.(response := ResponseChain(hs[..k], orig, c))) == None
    ensures ResponseChain(hs, orig, c) == ResponseChain(hs[k + 1..], orig, c.(response := None))
  {
    assert hs == hs[..k + 1] + hs[k + 1..];
    ResponseChainAppend(hs[..k + 1], hs[k + 1..], orig, c);
    assert hs[..k + 1][..k] == hs[..k];
  }

  // ---------------------------------------------------------------------------
  // ServeHTTP

  /** With handlers that act only through their return values, the response handlers
      cannot change what the client is sent, nor whether and with what request the
      round trip is made: HandleResponse returns its input. (A Go handler could still
      do so by side effects on the context or on the response it is given, which this
      model leaves out.) */
  lemma ServeIgnoresResponseHandlers(upstream: URL, reqHs: seq<RequestHandler>, respHs1: seq<ResponseHandler>, respHs2: seq<ResponseHandler>,
                                     counter: int64, r: Request, transport: Request -> Result<Response, GoString>, w: WriterState)
    ensures Serve(upstream, reqHs, respHs1, counter, r, transport, w).writer == Serve(upstream, reqHs, respHs2, counter, r, transport, w).writer
    ensures Serve(upstream, reqHs, respHs1, counter, r, transport, w).sent == Serve(upstream, reqHs, respHs2, counter, r, transport, w).sent
  {
  }

  /** A response built by NewResponse and returned by the upstream reaches a fresh
      writer intact: its status, its body and its Content-Type header only. */
  lemma ServeRelaysNewResponse(upstream: URL, reqHs: seq<RequestHandler>, respHs: seq<ResponseHandler>, counter: int64, r: Request,
                               contentType: GoString, status: int, body: GoString)
    requires var inbound := r.(url := RewriteURL(upstream, r.url));
             RequestChain(reqHs, inbound, ContextView(inbound, None, None, [], AddInt64(counter, 1))).1 == None
    ensures var transport := (q: Request) => Success(NewResponse(q, contentType, status, body));
            Serve(upstream, reqHs, respHs, counter, r, transport, WriterState(map[], None, [])).writer
            == WriterState(map["Content-Type" := [contentType]], Some(status), body)
  {
  }

  // ---------------------------------------------------------------------------
  // Sessions

  /** Successive calls on a counter that starts at `counter` and does not overflow get
      the next numbers in turn: counter + 1, counter + 2, ... */
  lemma {:induction false} SessionsCount(counter: int64, n: nat)
    requires counter as int + n <= MaxInt64 as int
    ensures |Sessions(counter, n)| == n
    ensures forall i | 0 <= i < n :: Sessions(counter, n)[i] as int == counter as int + i + 1
    decreases n
  {
    if n > 0 {
      var next := AddInt64(counter, 1);
      SessionsCount(next, n - 1);
      assert Sessions(counter, n) == [next] + Sessions(next, n - 1);
    }
  }

  /** A new server (counter 0) numbers its first n calls 1, 2, ..., n: strictly
      increasing, hence pairwise distinct. */
  lemma SessionsFromNewServer(n: nat)
    requires n <= MaxInt64 as int
    ensures |Sessions(0, n)| == n
    ensures forall i | 0 <= i < n :: Sessions(0, n)[i] as int == i + 1
    ensures forall i, j | 0 <= i < j < n :: Sessions(0, n)[i] < Sessions(0, n)[j]
  {
    SessionsCount(0, n);
  }

  /** The counter wraps around like Go's int64: after MaxInt64 comes MinInt64. */
  lemma SessionsWrapAround()
    ensures Sessions(MaxInt64, 1) == [MinInt64]
  {
  }

  // ---------------------------------------------------------------------------
  // copyHeaders and the URL rewrite

  /** When every key of `src` has at least one value, copyHeaders makes the destination
      equal to `src`. */
  lemma CopiedHeadersOfFullHeader(src: Header)
    requires forall k | k in src :: src[k] != []
    ensures CopiedHeaders(src) == src
  {
  }

  /** Rewriting an already rewritten URL onto the same upstream changes nothing. */
  lemma RewriteURLIdempotent(upstream: URL, inbound: URL)
    ensures RewriteURL(upstream, RewriteURL(upstream, inbound)) == RewriteURL(upstream, inbound)
  {
  }

  /** The rewritten URL depends on the inbound URL only through its path, raw query and
      user information. */
  lemma RewriteURLDependsOnlyOnPathQueryUser(upstream: URL, a: URL, b: URL)
    requires a.path == b.path && a.rawQuery == b.rawQuery && a.user == b.user
    ensures RewriteURL(upstream, a) == RewriteURL(upstream, b)
  {
  }
}
