# httpipe, modelled in Dafny

httpipe is a small reverse-proxy pipeline written in Go. A `Server` holds an upstream URL,
a list of request handlers, a list of response handlers and a session counter. For each
inbound request, `ServeHTTP` does the following:

1. It rewrites the request's URL onto the upstream. Only the path, the raw query and the user information come from the inbound URL.
2. It numbers the call with the next session id.
3. It runs the request handlers. The first handler that returns a response short-circuits the chain.
4. If no handler short-circuited, it makes the round trip to the upstream.
5. It runs the response handlers.
6. It relays the upstream's headers (without `Content-Length`), its status and the captured body to the client.
7. If the round trip fails, the client gets status 500 and the error text.

The model is in six modules:

- `Wrappers` (`wrappers.dfy`): `Option` stands for Go's nil pointers and `Result` for `(value, error)` pairs.
- `Atomic` (`atomic.dfy`): Go's `int64` and `atomic.AddInt64`, including the wrap-around.
- `NetHttp` (`nethttp.dfy`): the parts of Go's `net/http` and `net/url` that the core uses.
  - Go strings are byte strings (`GoString = seq<Byte>`, a byte being a character below 256).
  - `Header` is a map from key to the ordered list of its values.
  - `URL`, `Request` and `Response` are records.
  - `ResponseWriter` is a class. Its `WriteHeader` keeps the first status written and ignores later ones. Its `Write` implies status 200 if none was written.
  - `http.Error` is the method `Error`.
- `Httpipe` (`httpipe.dfy`): the core itself.
  - `Context` and `Server` are classes whose fields the methods update.
  - Handlers are Dafny function values. They see the context through a `ContextView` snapshot.
  - `HandleRequest`, `HandleResponse` and `copyHeaders` are methods with loops. `ServeHTTP` is a method without a loop of its own that calls them.
  - Each of these four methods is proved against a specification function: `RequestChain`, `ResponseChain`, `CopiedHeaders` and `Serve`.
  - `NewResponse` and the URL rewrite are functions.
  - The transport is a function value passed to `ServeHTTP`. `ServeHTTP` returns the context it used and the request it handed to the transport, both as ghost results.
- `HttpipeLemmas` (`httpipe_lemmas.dfy`): lemmas that hold for all inputs.
- `HttpipeScenarios` (`httpipe_scenarios.dfy`): concrete exchanges.

`RequestWrapper` and `ResponseWrapper` (httpipe.go:41-45, 56-60) only adapt a Go function to a handler interface. Here a handler simply is that function, so the adapters have no member of their own.

## What the code does that its comments leave unsaid

The model follows the code. Four of the code's behaviours are easy to miss, and two of them go against its own comments:

- **`HandleRequest` without a short-circuit** (httpipe.go:92-98). When no handler returns a response, the code returns the request of the *last* handler, not the original request. They differ whenever the last handler returns a request other than `r`; with no handlers the result is `r` itself. The comment at httpipe.go:89-90 says only that the loop breaks when a response is returned.
- **`HandleResponse`** (httpipe.go:103-107). The code gives every handler `orig` and returns `orig`. A handler's result reaches the next handler only through `ctx.Response`. The comments at httpipe.go:47-48 and 62-65 say the response handlers are called "for the returned response" and "whenever a response is returned to a client". In the code, their return values never reach the client. Consequences:
  - `HandleResponse(nil, ctx)` is always nil, so a failed round trip always ends in the 500 reply.
  - Suppose handlers act only through their return values, as they do in this model. Then no response handler can change what the client is sent; `ServeIgnoresResponseHandlers` proves this. A Go handler could still change the reply by side effects: assigning `ctx.Body`, or editing the status or headers of the `*http.Response` it is given. The model leaves those side effects out.
- **A short-circuit response is never written** (httpipe.go:121-145). All writing happens inside `if resp == nil`. The comment at httpipe.go:30-33 says that such a response "will be sent to the client". `ShortCircuitScenario` shows that nothing reaches the writer.
- **`copyHeaders` drops keys with no values** (httpipe.go:165-169). A key appears only when one of its values is added. The destination therefore equals the source minus the keys whose value list is empty.

## Model

| member | source | states |
|---|---|---|
| `Httpipe.Context.constructor` | httpipe.go:119 | a new context holds the rewritten request and the new session; response, error and body are nil |
| `Httpipe.Server.constructor` | httpipe.go:80-86 | a new server has the given upstream, no handlers and session counter 0 |
| `Httpipe.RequestChainFrom` | httpipe.go:92-97 | the loop continued from any point: with no handler left it returns the request it holds and nil; otherwise its result is exactly the pair some handler returned |
| `Httpipe.RequestChain` | httpipe.go:91-99 | what HandleRequest returns: `(r, nil)` with no handlers, otherwise exactly the pair some handler returned for `r` |
| `Httpipe.Server.HandleRequest` | httpipe.go:91-99 | returns what the chain specification gives; with no handlers it returns `(r, nil)`; otherwise it returns the last invoked handler's result; every handler before that one returned nil; stopping early means a response was returned, so later handlers are never invoked |
| `HttpipeLemmas.RequestChainFromStopsAt` | httpipe.go:93-97 | the loop, continued from any point, returns exactly the result of the first handler that answers |
| `HttpipeLemmas.RequestChainFromRunsThrough` | httpipe.go:92-97 | the loop, continued from any point, returns the last handler's request and nil when no handler answers |
| `HttpipeLemmas.RequestChainShortCircuits` | httpipe.go:94-96 | HandleRequest returns exactly the `(req, resp)` of the first handler whose response is non-nil |
| `HttpipeLemmas.RequestChainRunsThrough` | httpipe.go:92-98 | with no answering handler, HandleRequest returns the last handler's request and nil, or `(r, nil)` for an empty list |
| `HttpipeLemmas.RequestChainAnswersIff` | httpipe.go:93-97 | HandleRequest returns a response if and only if some handler returns one |
| `HttpipeLemmas.RequestChainIgnoresLater` | httpipe.go:94-96 | once a handler answers, appending more handlers does not change the result |
| `Httpipe.Server.HandleResponse` | httpipe.go:102-108 | returns `orig`; every handler is called with `orig` and with the context whose response is the previous handler's result; afterwards ctx.Response is the last handler's result, or untouched for an empty list; no other context field changes |
| `Httpipe.ResponseChain` | httpipe.go:103-107 | ctx.Response after the loop: untouched with no handlers; with a single handler, its result on `orig` and the context as it was |
| `HttpipeLemmas.ResponseChainAppend` | httpipe.go:104-106 | running two handler lists one after the other equals running their concatenation, with ctx.Response carried over |
| `HttpipeLemmas.ResponseChainNilClobbers` | httpipe.go:104-106 | a handler that returns nil on its own call erases everything before it: the final ctx.Response is what the later handlers make of a nil ctx.Response, whatever the earlier handlers returned and whatever the starting response was |
| `Httpipe.RewriteURL` | httpipe.go:112-115 | the rewritten URL has the inbound path, raw query and user; every other field (scheme, host, Opaque, RawPath, ForceQuery, fragments) is the upstream's |
| `HttpipeLemmas.RewriteURLIdempotent` | httpipe.go:112-115 | rewriting a rewritten URL onto the same upstream changes nothing |
| `HttpipeLemmas.RewriteURLDependsOnlyOnPathQueryUser` | httpipe.go:112-115 | inbound URLs that agree on path, raw query and user are rewritten to the same URL |
| `Atomic.AddInt64` | httpipe.go:119 | the new counter equals old plus delta modulo 2^64, and equals the exact sum when that sum fits in an int64 |
| `Httpipe.Sessions` | httpipe.go:119 | n successive calls get n ids; the first is the counter plus one, and each later one is the one before plus one, with int64 wrap-around |
| `HttpipeLemmas.SessionsCount` | httpipe.go:119 | successive calls on a counter that does not overflow get counter+1, counter+2, ... |
| `HttpipeLemmas.SessionsFromNewServer` | httpipe.go:119 | a fresh server numbers its first n calls 1..n, strictly increasing and so pairwise distinct |
| `HttpipeLemmas.SessionsWrapAround` | httpipe.go:119 | after MaxInt64 the counter wraps to MinInt64, as Go's int64 does |
| `HttpipeScenarios.SuccessiveCalls` | httpipe.go:111-119 | n real ServeHTTP calls on a new server get exactly the sessions `Sessions(0, n)`, which are 1, 2, ..., n when n does not exceed MaxInt64 |
| `Httpipe.Serve` | httpipe.go:111-146 | the context carries the rewritten request and the incremented session; a round trip happens if and only if no request handler answered, and then it is given the request the chain returned; on a short-circuit nothing is written; on a transport error the error is recorded and the client gets 500 with the error text; on success the body is captured, the client gets the upstream headers minus Content-Length (old writer headers gone), the upstream status and the captured body |
| `Httpipe.Server.ServeHTTP` | httpipe.go:111-146 | the session counter rises by one (with wrap-around) and the context has the new value; the context, the request given to the transport and the writer end up exactly as `Serve` prescribes |
| `HttpipeLemmas.ServeIgnoresResponseHandlers` | httpipe.go:127-141 | with handlers that act only through their return values, what the client is sent, and whether and with what request the round trip is made, do not depend on the response handlers |
| `HttpipeLemmas.ServeRelaysNewResponse` | httpipe.go:134-141 | when the upstream's answer is a NewResponse, a fresh writer receives its status, its body and only its Content-Type header |
| `Httpipe.CopiedHeaders` | httpipe.go:161-170 | the copy has exactly the source keys with at least one value, each with the source's values in order |
| `Httpipe.CopyHeaders` | httpipe.go:161-170 | the writer's header map becomes the copy of the source; the old keys are gone; status and written bytes are unchanged |
| `HttpipeLemmas.CopiedHeadersOfFullHeader` | httpipe.go:161-170 | when every source key has a value, the destination equals the source |
| `Httpipe.NewResponse` | httpipe.go:149-160 | the header map holds only Content-Type = [contentType]; StatusCode = status; ContentLength = byte length of body; Request = r; TransferEncoding = r's; the body is `body` |
| `NetHttp.HeaderAdd` | httpipe.go:167 | `key` ends with its old values (none if absent) followed by `value`; every other key keeps its values (also the call at httpipe.go:154) |
| `NetHttp.HeaderSet` | httpipe.go:130 | `key` ends with the single value `value`; every other key keeps its values |
| `NetHttp.HeaderDel` | httpipe.go:137 | `key` is gone; every other key keeps its values (also the calls at httpipe.go:163) |
| `NetHttp.WriterState.WithStatus` | httpipe.go:139 | WriteHeader's effect: the status becomes `code` only if none was written; header and bytes are unchanged |
| `NetHttp.WriterState.WithBody` | httpipe.go:141 | Write's effect: the bytes are appended and status 200 is implied if none was written; the header is unchanged |
| `NetHttp.ErrorWritten` | httpipe.go:130 | after http.Error the writer has Content-Type text/plain and nosniff set, the status (if none was written before) and the message plus a newline appended |
| `NetHttp.Error` | httpipe.go:130 | the writer ends in the state `ErrorWritten` describes |
| `NetHttp.ResponseWriter.WriteHeader` | httpipe.go:139 | the first status written is kept; nothing else changes |
| `NetHttp.ResponseWriter.Write` | httpipe.go:141 | the bytes are appended; status 200 is implied if none was written |
| `HttpipeScenarios.RewriteScenario` | httpipe.go:112-117 | GET /foo?x=1 against http://upstream.example goes to http://upstream.example/foo?x=1 |
| `HttpipeScenarios.ShortCircuitScenario` | httpipe.go:120-121 | a request handler answering 403 prevents the round trip, and nothing at all is written |
| `HttpipeScenarios.RoundTripErrorScenario` | httpipe.go:123-132 | a failed round trip with no response handlers records the error and gives the client 500 and the error text |
| `HttpipeScenarios.HelloScenario` | httpipe.go:134-141 | an upstream 200 "hello" with Content-Length gives the client 200 and "hello", and the writer's header map has no Content-Length |

## Left out

- The network transport is not modelled: `Context.RoundTrip`, the `Transport` field and `ProxyFromEnvironment` (httpipe.go:26-28, 70, 84). The transport is a function from request to response-or-error, passed to `ServeHTTP`.
- `url.Parse` and the panic in `New` are not modelled (httpipe.go:76-79). The constructor takes an already parsed URL.
- Body streams are not modelled: a response's body is the byte sequence its stream yields. `ioutil.ReadAll` therefore reads it completely. A read error, which the code ignores anyway (httpipe.go:134), does not arise.
- `resp.Body.Close`, its logged error and every `log.Printf` are left out (httpipe.go:118, 142-144). They are I/O and logging only.
- Concurrency is not modelled: `atomic.AddInt64` is a sequential increment (with wrap-around), so the atomicity of the increment is not captured.
- Go's canonicalisation of header keys in `Header.Add`/`Del` is left out. Keys are assumed to be canonical already.
- Handlers are pure functions of their arguments. Their side effects are not modelled: assigning context fields such as `ctx.Body`, or editing the `*http.Response` they are given. A Go response handler could change the reply that way. Reading `ctx.Server` is not modelled either; the context has no `Server` field.
- Pointer aliasing is not modelled. `ServeHTTP` assigns `r.URL` in the caller's request object, and `Header.Del` edits a response header that `ctx.Response` may share. Here requests and responses are values, so those changes are not visible through other references.
- Nil requests returned by request handlers, and nil header maps, are not represented.
- `url.URL`'s `OmitHost` field is not modelled. The rewrite at httpipe.go:112 would keep the upstream's value, as it does for every other field.
- Only the `http.Request` and `http.Response` fields the core touches are modelled. `Status`, `Proto`, `Trailer` and the rest are left out.
- `NetHttp.ResponseWriter.WriteHeader`: does not model net/http's panic on codes outside 100-999, 1xx informational replies, or headers being fixed when the status is written. ServeHTTP always sets the headers before the status.
- `NetHttp.Error`: models the long-standing net/http behaviour of `http.Error`. It does not model the extra header removals some newer Go releases add.
- Registering handlers has no operation of its own: the source assigns the exported slices directly, and here they are public fields of `Server`.
