/**
 * The request logger's URI normaliser: `parseURI` gives the target as
 * path-plus-query, `uriPath` the path alone. Both special-case a CONNECT request
 * over HTTP/2, whose target is the `host:port` authority (section 8.3 of
 * RFC 7540) rather than a path. Both are pure functions of the request and its
 * parsed URL; the request logger uses them for the `http.uri` and `http.path`
 * fields of a log record.
 *
 * For an ordinary request the path is rendered as `url.URL.RequestURI` renders
 * it: an empty path becomes "/", and "?" plus the raw query is appended only
 * when the raw query is not empty.
 */
module UriNormalizer {
  import opened Http

  /** A CONNECT request over HTTP/2: its target is an authority, not a path. */
  predicate IsHttp2Connect(req: Request) {
    req.protoMajor == 2 && req.httpMethod == "CONNECT"
  }

  /** The path as a request target: "/" when the URL has none. */
  function TargetPath(u: URL): (p: string)
    ensures p != ""
  {
    if u.path == "" then "/" else u.path
  }

  /** `uriPath(req, url)`: the path of the target, without its query. */
  function UriPath(req: Request, u: URL): (path: string)
    ensures IsHttp2Connect(req) ==> path == u.host
    ensures !IsHttp2Connect(req) ==> path != "" && (path == u.path || (u.path == "" && path == "/"))
  {
    if IsHttp2Connect(req) then u.host else TargetPath(u)
  }

  /** `parseURI(req, url)`: the full target, with the query. */
  function ParseURI(req: Request, u: URL): (uri: string)
    ensures UriPath(req, u) <= uri
    ensures !IsHttp2Connect(req) ==> uri != ""
  {
    if IsHttp2Connect(req) then u.host
    else TargetPath(u) + (if u.rawQuery != "" then "?" + u.rawQuery else "")
  }

  // ---------------------------------------------------------------------------
  // Reading a target back: everything before the first '?' and everything after
  // ---------------------------------------------------------------------------

  /** The part of `s` before its first '?', or all of `s` when it has none. */
  function BeforeQuery(s: string): (r: string)
    ensures r <= s
    ensures '?' !in r
  {
    if s == [] || s[0] == '?' then [] else [s[0]] + BeforeQuery(s[1..])
  }

  /** The part of `s` after its first '?', or "" when it has none. */
  function AfterQuery(s: string): string
  {
    if s == [] then []
    else if s[0] == '?' then s[1..]
    else AfterQuery(s[1..])
  }

  lemma {:induction false} SplitAtQuery(x: string, y: string)
    requires '?' !in x
    ensures BeforeQuery(x + "?" + y) == x
    ensures AfterQuery(x + "?" + y) == y
  {
    if x != [] {
      assert (x + "?" + y)[1..] == x[1..] + "?" + y;
      SplitAtQuery(x[1..], y);
      assert [x[0]] + x[1..] == x;
    } else {
      assert x + "?" + y == ['?'] + y;
    }
  }

  lemma {:induction false} NoQueryMark(x: string)
    requires '?' !in x
    ensures BeforeQuery(x) == x
    ensures AfterQuery(x) == ""
  {
    if x != [] {
      NoQueryMark(x[1..]);
      assert [x[0]] + x[1..] == x;
    }
  }

  // ---------------------------------------------------------------------------
  // Properties
  // ---------------------------------------------------------------------------

  /** HTTP/2 CONNECT: both functions give the authority unchanged. */
  lemma ConnectTargetIsAuthority(req: Request, u: URL)
    requires IsHttp2Connect(req)
    ensures ParseURI(req, u) == u.host && UriPath(req, u) == u.host
  {
  }

  /** Any other method, or CONNECT over another protocol version, is an ordinary request. */
  lemma ConnectNeedsHttp2(req: Request, u: URL)
    requires req.httpMethod == "CONNECT" && req.protoMajor != 2
    ensures !IsHttp2Connect(req)
    ensures UriPath(req, u) == TargetPath(u)
  {
  }

  /** An ordinary request with neither path nor query has target "/". */
  lemma EmptyTargetIsRoot(req: Request, u: URL)
    requires !IsHttp2Connect(req) && u.path == "" && u.rawQuery == ""
    ensures ParseURI(req, u) == "/" && UriPath(req, u) == "/"
  {
  }

  /** An ordinary request: the full target is the path, then "?" and the query if there is one. */
  lemma OrdinaryTarget(req: Request, u: URL)
    requires !IsHttp2Connect(req) && u.path != ""
    ensures UriPath(req, u) == u.path
    ensures u.rawQuery != "" ==> ParseURI(req, u) == u.path + "?" + u.rawQuery
    ensures u.rawQuery == "" ==> ParseURI(req, u) == u.path
  {
  }

  /**
   * For an ordinary request whose path holds no '?', `uriPath` is `parseURI` with
   * its query cut off, and the cut-off part is exactly the raw query: the target
   * can be read back into its path and its query.
   */
  lemma {:induction false} UriPathDropsQuery(req: Request, u: URL)
    requires !IsHttp2Connect(req) && '?' !in u.path
    ensures BeforeQuery(ParseURI(req, u)) == UriPath(req, u)
    ensures AfterQuery(ParseURI(req, u)) == u.rawQuery
  {
    var p := TargetPath(u);
    assert '?' !in p;
    if u.rawQuery != "" {
      assert ParseURI(req, u) == p + "?" + u.rawQuery;
      SplitAtQuery(p, u.rawQuery);
    } else {
      assert ParseURI(req, u) == p + "";
      assert p + "" == p;
      NoQueryMark(p);
    }
  }

  /** Two ordinary targets agree exactly when their paths (as targets) and queries do. */
  lemma ParseURIDeterminesPathAndQuery(r1: Request, u1: URL, r2: Request, u2: URL)
    requires !IsHttp2Connect(r1) && '?' !in u1.path
    requires !IsHttp2Connect(r2) && '?' !in u2.path
    ensures ParseURI(r1, u1) == ParseURI(r2, u2)
        <==> (TargetPath(u1) == TargetPath(u2) && u1.rawQuery == u2.rawQuery)
  {
    UriPathDropsQuery(r1, u1);
    UriPathDropsQuery(r2, u2);
  }

  // ---------------------------------------------------------------------------
  // The cases of TestParseUri and TestUriPath
  // ---------------------------------------------------------------------------

  /** `http.NewRequest(method, target)`: an HTTP/1.1 request without headers. */
  function NewRequest(httpMethod: string, u: URL): Request
  {
    Request(httpMethod, 1, u, map[])
  }

  /** The "http2" case: a CONNECT over HTTP/2 whose URL holds only the authority. */
  function Http2ConnectRequest(): Request
  {
    Request("CONNECT", 2, URL("www.example.com:443", "", ""), map[])
  }

  lemma ParseUriBasic()
    ensures ParseURI(NewRequest("GET", URL("example.com", "", "")), URL("example.com", "", "")) == "/"
  {
  }

  lemma ParseUriHttp2()
    ensures ParseURI(Http2ConnectRequest(), Http2ConnectRequest().url) == "www.example.com:443"
  {
  }

  lemma ParseUriWithParams()
    ensures ParseURI(NewRequest("GET", URL("example.com", "/path", "query=value")),
                     URL("example.com", "/path", "query=value")) == "/path?query=value"
  {
  }

  lemma ParseUriWithoutParams()
    ensures ParseURI(NewRequest("GET", URL("example.com", "/path", "")), URL("example.com", "/path", "")) == "/path"
  {
  }

  lemma UriPathBasic()
    ensures UriPath(NewRequest("GET", URL("example.cpom", "", "")), URL("example.cpom", "", "")) == "/"
  {
  }

  lemma UriPathHttp2()
    ensures UriPath(Http2ConnectRequest(), Http2ConnectRequest().url) == "www.example.com:443"
  {
  }

  lemma UriPathWithParams()
    ensures UriPath(NewRequest("GET", URL("example.com", "/path", "query=value")),
                    URL("example.com", "/path", "query=value")) == "/path"
  {
  }

  lemma UriPathWithoutParams()
    ensures UriPath(NewRequest("GET", URL("example.com", "/path", "")), URL("example.com", "/path", "")) == "/path"
  {
  }
}
