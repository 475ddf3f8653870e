/** The parts of Go's net/http and net/url that the proxy core relies on, as values:
    headers, URLs, requests, responses, the response writer and http.Error. */
module NetHttp {
  import opened Wrappers

  /** One byte of a Go string or byte slice. It is written as a character below 256 so
      that header names and other text can be given as string literals. */
  type Byte = c: char | c as int < 256 witness 'a'

  /** A Go string: an immutable sequence of bytes. */
  type GoString = seq<Byte>

  /** http.Header: each (canonical) key maps to its values in the order they were added. */
  type Header = map<GoString, seq<GoString>>

  /** Header.Add: appends `value` to the values of `key`. */
  function HeaderAdd(h: Header, key: GoString, value: GoString): (added: Header)
    ensures key in added && added[key] == (if key in h then h[key] else []) + [value]
    ensures forall k | k != key :: (k in added <==> k in h) && (k in h ==> added[k] == h[k])
  {
    h[key := (if key in h then h[key] else []) + [value]]
  }

  /** Header.Set: replaces the values of `key` by the single `value`. */
  function HeaderSet(h: Header, key: GoString, value: GoString): (replaced: Header)
    ensures key in replaced && replaced[key] == [value]
    ensures forall k | k != key :: (k in replaced <==> k in h) && (k in h ==> replaced[k] == h[k])
  {
    h[key := [value]]
  }

  /** Header.Del: removes `key` and all its values. */
  function HeaderDel(h: Header, key: GoString): (removed: Header)
    ensures key !in removed
    ensures forall k | k != key :: (k in removed <==> k in h) && (k in h ==> removed[k] == h[k])
  {
    h - {key}
  }

  /** url.Userinfo: a user name and an optional password. */
  datatype Userinfo = Userinfo(username: GoString, password: Option<GoString>)

  /** url.URL, field by field (`schemeSpecific` is Go's Opaque field). `user` is None for
      a nil *Userinfo. */
  datatype URL = URL(
    scheme: GoString,
    schemeSpecific: GoString,
    user: Option<Userinfo>,
    host: GoString,
    path: GoString,
    rawPath: GoString,
    forceQuery: bool,
    rawQuery: GoString,
    fragment: GoString,
    rawFragment: GoString)

  /** The fields of http.Request that the proxy reads or rewrites (`verb` is Go's Method). */
  datatype Request = Request(
    verb: GoString,
    url: URL,
    header: Header,
    transferEncoding: seq<GoString>)

  /** The fields of http.Response that the proxy reads or sets. `body` is everything the
      body stream yields; `request` is None for a nil *Request. */
  datatype Response = Response(
    statusCode: int,
    header: Header,
    body: seq<Byte>,
    contentLength: int,
    transferEncoding: seq<GoString>,
    request: Option<Request>)

  /** What a client has been sent through an http.ResponseWriter: its header map, the
      status once one is written, and the body bytes written so far. */
  datatype WriterState = WriterState(header: Header, status: Option<int>, written: seq<Byte>)
  {
    /** ResponseWriter.WriteHeader: the first status written is the one sent; later
        calls are ignored. */
    function WithStatus(code: int): (w: WriterState)
      ensures w.header == header && w.written == written
      ensures w.status == if status.None? then Some(code) else status
    {
      if status.None? then this.(status := Some(code)) else this
    }

    /** ResponseWriter.Write: sends status 200 first if no status was written, then
        appends `data` to the body. */
    function WithBody(data: seq<Byte>): (w: WriterState)
      ensures w.header == header && w.written == written + data
      ensures w.status == if status.None? then Some(200) else status
    {
      WithStatus(200).(written := written + data)
    }
  }

  /** An http.ResponseWriter whose effects are recorded in its fields. */
  class ResponseWriter {
    var header: Header
    var status: Option<int>
    var written: seq<Byte>

    function State(): (s: WriterState)
      reads this
    {
      WriterState(header, status, written)
    }

    constructor ()
      ensures State() == WriterState(map[], None, [])
    {
      header, status, written := map[], None, [];
    }

    method WriteHeader(code: int)
      modifies this
      ensures State() == old(State()).WithStatus(code)
    {
      if status.None? {
        status := Some(code);
      }
    }

    method Write(data: seq<Byte>)
      modifies this
      ensures State() == old(State()).WithBody(data)
    {
      WriteHeader(200);
      written := written + data;
    }
  }

  /** The writer after http.Error(w, error, code). */
  function ErrorWritten(w: WriterState, error: GoString, code: int): (r: WriterState)
    ensures r.header == w.header["Content-Type" := ["text/plain; charset=utf-8"]]["X-Content-Type-Options" := ["nosniff"]]
    ensures r.status == if w.status.None? then Some(code) else w.status
    ensures r.written == w.written + error + "\n"
  {
    var h := HeaderSet(HeaderSet(w.header, "Content-Type", "text/plain; charset=utf-8"), "X-Content-Type-Options", "nosniff");
    w.(header := h).WithStatus(code).WithBody(error + "\n")
  }

  /** http.Error: replies with a plain-text error message (followed by a newline) and
      the given status code. */
  method Error(w: ResponseWriter, error: GoString, code: int)
    modifies w
    ensures w.State() == ErrorWritten(old(w.State()), error, code)
  {
    w.header := HeaderSet(w.header, "Content-Type", "text/plain; charset=utf-8");
    w.header := HeaderSet(w.header, "X-Content-Type-Options", "nosniff");
    w.WriteHeader(code);
    w.Write(error + "\n");
  }
}
