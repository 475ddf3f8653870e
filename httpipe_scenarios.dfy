/** Concrete exchanges through the pipeline, stated on the model. */
module HttpipeScenarios {
  import opened Wrappers
  import opened Atomic
  import opened NetHttp
  import opened Httpipe
  import opened HttpipeLemmas

  const Upstream := URL("http", "", None, "upstream.example", "", "", false, "", "", "")
  const Inbound := URL("", "", None, "", "/foo", "", false, "x=1", "", "")
  const Get := Request("GET", Inbound, map[], [])
  const Fresh := WriterState(map[], None, [])

  /** GET /foo?x=1 against upstream http://upstream.example goes to
      http://upstream.example/foo?x=1. */
  lemma RewriteScenario()
    ensures RewriteURL(Upstream, Inbound) == URL("http", "", None, "upstream.example", "/foo", "", false, "x=1", "", "")
  {
  }

  /** A request handler answers 403: no round trip is made and NOTHING is written to
      the client, since ServeHTTP writes only on the round-trip path. */
  lemma ShortCircuitScenario(respHs: seq<ResponseHandler>, transport: Request -> Result<Response, GoString>)
    ensures var deny := (q: Request, c: ContextView) => (q, Some(NewResponse(q, "text/plain", 403, "forbidden")));
            var s := Serve(Upstream, [deny], respHs, 0, Get, transport, Fresh);
            s.sent == None && s.writer == Fresh && s.ctx.session == 1
  {
  }

  /** The round trip fails and no response handler is registered: the client gets
      status 500 and the error text. */
  lemma RoundTripErrorScenario()
    ensures var transport := (q: Request) => Failure("connection refused");
            var s := Serve(Upstream, [], [], 0, Get, transport, Fresh);
            && s.ctx.error == Some("connection refused")
            && s.writer.status == Some(500)
            && s.writer.written == "connection refused\n"
  {
  }

  /** The upstream answers 200 "hello" with a Content-Length header: the client gets
      status 200 and "hello", and the stale Content-Length is not passed on. */
  lemma HelloScenario()
    ensures var hello := Response(200, map["Content-Length" := ["5"], "Content-Type" := ["text/plain"]], "hello", 5, [], None);
            var transport := (q: Request) => Success(hello);
            var s := Serve(Upstream, [], [], 0, Get, transport, Fresh);
            && s.writer == WriterState(map["Content-Type" := ["text/plain"]], Some(200), "hello")
            && s.ctx.body == "hello"
  {
  }

  /** `n` calls on a new server get the sessions `Sessions(0, n)`: 1, 2, ..., n as long
      as the counter does not overflow. */
  method SuccessiveCalls(n: nat, transport: Request -> Result<Response, GoString>) returns (sessions: seq<int64>)
    ensures sessions == Sessions(0, n)
    ensures n <= MaxInt64 as int ==> forall i | 0 <= i < n :: sessions[i] as int == i + 1
  {
    var server := new Server(Upstream);
    sessions := [];
    var i := 0;
    while i < n
      invariant 0 <= i <= n
      invariant sessions + Sessions(server.session, n - i) == Sessions(0, n)
    {
      var w := new ResponseWriter();
      ghost var before := server.session;
      var _, _ := server.ServeHTTP(w, Get, transport);
      assert Sessions(before, n - i) == [server.session] + Sessions(server.session, n - i - 1);
      sessions := sessions + [server.session];
      i := i + 1;
    }
    if n <= MaxInt64 as int {
      SessionsFromNewServer(n);
    }
  }
}
