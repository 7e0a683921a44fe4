# API-key authentication and URI normalisation, modelled in Dafny

This project models two pure pieces of a small Go collection of HTTP middleware:

- **The API-key authentication middleware** (`APIKey.Handler`). This is a linear chain of checks on the `Authorization` header:
  - the header has at least one value;
  - its first value splits on a single space into exactly two tokens, `<provider> <key>`;
  - the provider token equals the configured provider.

  The Finder collaborator is then asked to resolve the key. The request leaves by exactly one exit:
  - the error handler is called once, with one of four typed errors and status 401; or
  - the inner handler is called once, with the found identity attached.

  The collaborators are not run. `ApiKey.Handle` returns the calls the middleware makes to them, in order: `Find(key, req)`, `OnError(req, err, 401)`, `Next(req, user)`.
- **The request logger's URI normaliser** (`parseURI` and `uriPath`):
  - `parseURI` gives path plus query;
  - `uriPath` gives the path alone;
  - both give the `host:port` authority for a CONNECT request over HTTP/2 (section 8.3 of RFC 7540).

Files:

- `go_strings.dfy` (module `GoStrings`) — `strings.Split` on a one-character separator, `strings.Count`, and `strings.Join` as Split's inverse.
- `http.dfy` (module `Http`) — the request as a value: method, protocol major version, URL (host, path, raw query) and the header map.
- `apikey.dfy` (module `ApiKey`) — the guard chain `Check`, the handler `Handle`, the error types and their `Error()` messages, and worked cases.
- `uri.dfy` (module `UriNormalizer`) — `ParseURI`, `UriPath`, their properties, and the table cases of `TestParseUri` and `TestUriPath` as lemmas.

Edge cases as the code decides them:

- **Splitting.** The header is split on a single space `" "`, not on general whitespace. A double space therefore gives three tokens, and a trailing space gives an empty key (`"Graze "` splits to `["Graze", ""]`), which passes the format check.
- **Missing header.** The check is `len(header) == 0`. A header key that is present but holds no values counts as missing too.
- **Finder failure.** `InvalidKey` happens only when the Finder returns a non-nil error. The identity it returns is never inspected.
- **Finder argument.** The Finder receives the key and the whole request. In `Handle` the Finder and the error handler get the incoming request, and the inner handler gets it too, with the identity attached; its contract says so.
- **Naming.** `parseURI` is called as `parseUri` at handlers/structured.go:42 and as `parseURI` in handlers/request_logger_test.go:45. The model has one function, `ParseURI`.
- **Message typo.** The `BadProviderError` message begins "Authroziation", misspelled. The model keeps that text unchanged.

## Model

| member | source | states |
|---|---|---|
| `GoStrings.Split` | handlers/auth/apikey.go:129 | `strings.Split(s, " ")` has one more part than `s` has spaces, and no part contains a space |
| `GoStrings.JoinSplit` | handlers/auth/apikey.go:129 | joining the parts of a split with the separator gives back the original header value |
| `GoStrings.SplitJoin` | handlers/auth/apikey.go:129 | splitting a join of separator-free parts gives back those parts (Split's other inverse direction) |
| `GoStrings.SplitPair` | handlers/auth/apikey.go:129-135 | two space-free strings joined by one space split into exactly those two tokens |
| `ApiKey.Handle` | handlers/auth/apikey.go:121-150 | exactly one exit (error handler or inner handler), taken last; at most one Finder call before it; the Finder and the error handler get the incoming request, and the inner handler gets it with the identity attached; every failure has status 401; the Finder is called only with the key the guards accepted; the inner handler gets only the identity the Finder returned |
| `Http.HeaderValues` | handlers/auth/apikey.go:123 | the values read are the map's entry for the name when it is present, and a name with values is present in the map |
| `ApiKey.Check` | handlers/auth/apikey.go:123-139 | the guards report NoHeader if and only if there are no `Authorization` values; an accepted key `k` means the first value is `provider + " " + k` and `k` has no space; the guards never report InvalidKey, which only the Finder can cause |
| `ApiKey.CheckReadsFirstValueOnly` | handlers/auth/apikey.go:123-129 | `Authorization` values after the first never change what the guards decide |
| `ApiKey.CheckInvalidFormat` | handlers/auth/apikey.go:129-133 | the format guard fails if and only if the first value does not contain exactly one space; the error then carries `"<provider> <apiKey>"` and the raw value |
| `ApiKey.CheckBadProvider` | handlers/auth/apikey.go:135-139 | with two tokens, the guards report BadProvider(received, expected) if and only if the first token differs from the configured provider |
| `ApiKey.CheckAcceptsExactly` | handlers/auth/apikey.go:129-141 | the guards accept with key `k` if and only if the first value is `provider + " " + k` and neither part contains a space |
| `ApiKey.CheckRoundTrip` | handlers/auth/apikey.go:129-141 | for a space-free provider and key, `provider + " " + k` passes both guards and yields exactly `k`, whatever values follow it |
| `ApiKey.ProviderWithSpaceRejectsAll` | handlers/auth/apikey.go:27-29 | a configured provider containing a space can never be matched, which is why the provider must not contain spaces |
| `ApiKey.HandleNoHeader` | handlers/auth/apikey.go:123-127 | with no `Authorization` values, the only call is the error handler with NoHeader and 401; neither the Finder nor the inner handler runs |
| `ApiKey.HandleRejectsBeforeLookup` | handlers/auth/apikey.go:124-139 | any guard failure makes the error handler the only call, so the Finder is not asked |
| `ApiKey.HandleInvalidKey` | handlers/auth/apikey.go:141-145 | a Finder error gives the calls [lookup of the key, error handler with InvalidKey(key, err) and 401] |
| `ApiKey.HandleServes` | handlers/auth/apikey.go:141-148 | a found identity gives the calls [lookup, inner handler with that identity], and the error handler is never called |
| `ApiKey.HandleServesExactly` | handlers/auth/apikey.go:129-148 | the inner handler runs if and only if the guards accept some key and the Finder finds it |
| `ApiKey.HandleLooksUpKey` | handlers/auth/apikey.go:129-141 | for a first value `provider + " " + k` (no spaces in either part), the first call is the Finder with exactly `k` |
| `ApiKey.ErrorMessage` | handlers/auth/apikey.go:50-64 | NoHeader's message is the fixed text; the other three start with their fixed text and place the payload in the source's order: the format, then the header after `" got: "`; the expected provider, then the received one after `" got: "`; the key, then the cause's text after `"' is not valid: "` |
| `ApiKey.ErrorMessageNamesKind` | handlers/auth/apikey.go:50-64 | each `Error()` text identifies its error kind: reading the kind back from the message gives the error's kind |
| `ApiKey.ErrorMessageDistinguishesKinds` | handlers/auth/apikey.go:50-64 | errors of two different kinds never have the same message |
| `ApiKey.InvalidFormatMessageKeepsHeader` | handlers/auth/apikey.go:54-56 | for a fixed format, the InvalidFormat message determines the raw header |
| `ApiKey.BadProviderMessageKeepsProvider` | handlers/auth/apikey.go:58-60 | for a fixed expected provider, the BadProvider message determines the received provider |
| `ApiKey.InvalidKeyMessageKeepsCause` | handlers/auth/apikey.go:62-64 | for a fixed key, the InvalidKey message determines the wrapped error's text |
| `ApiKey.OneTokenExample` | handlers/auth/apikey.go:129-133 | `"onlyonetoken"` is InvalidFormat carrying the raw value |
| `ApiKey.EmptyValueExample` | handlers/auth/apikey.go:129-133 | an empty first value is InvalidFormat |
| `ApiKey.ThreeTokensExample` | handlers/auth/apikey.go:129-133 | `"a b c"` is InvalidFormat |
| `ApiKey.DoubleSpaceSplitsInThree` | handlers/auth/apikey.go:129 | `"Graze  key"` splits into `["Graze", "", "key"]` |
| `ApiKey.DoubleSpaceExample` | handlers/auth/apikey.go:129-133 | a double space is InvalidFormat |
| `ApiKey.TrailingSpaceGivesEmptyKey` | handlers/auth/apikey.go:129-141 | `"Graze "` splits into `["Graze", ""]`, so it passes the guards with an empty key |
| `ApiKey.WrongProviderExample` | handlers/auth/apikey.go:135-139 | `"Wrong key"` against provider `Graze` is BadProvider("Wrong", "Graze") |
| `ApiKey.BadKeyPassesGuards` | handlers/auth/apikey.go:129-141 | `"Graze badkey"` passes the guards with key `badkey` |
| `ApiKey.GoodKeyPassesGuards` | handlers/auth/apikey.go:129-141 | `"Graze goodkey"` passes the guards with key `goodkey` |
| `ApiKey.TableFinder` | handlers/auth/apikey.go:69-79 | the table Finder of the usage notes finds a key if and only if the table holds it, and then returns the table's user; otherwise its error says "No user found for: " and the key |
| `ApiKey.UnknownKeyExample` | handlers/auth/apikey.go:141-145 | with a table Finder that holds only `goodkey`, `"Graze badkey"` is looked up and rejected as InvalidKey with the Finder's error and 401 |
| `ApiKey.KnownKeyExample` | handlers/auth/apikey.go:141-148 | with the same Finder, `"Graze goodkey"` is looked up and the inner handler runs with the table's user attached |
| `UriNormalizer.UriPath` | handlers/request_logger_test.go:49-84 | for CONNECT over HTTP/2 the path is the authority; otherwise it is never empty, and it is the URL's path, or `"/"` when that is empty |
| `UriNormalizer.ParseURI` | handlers/request_logger_test.go:12-47 | `uriPath`'s result is always a prefix of `parseURI`'s; an ordinary request never gives an empty target |
| `UriNormalizer.ConnectTargetIsAuthority` | handlers/request_logger_test.go:21-32 | for CONNECT over HTTP/2, both functions return the URL's `host:port` unchanged |
| `UriNormalizer.ConnectNeedsHttp2` | handlers/request_logger_test.go:21-32 | CONNECT over another protocol version is not the HTTP/2 CONNECT case, and `uriPath` gives the path as a target |
| `UriNormalizer.EmptyTargetIsRoot` | handlers/request_logger_test.go:17-20 | an ordinary request with an empty path and no query gives `"/"` from both functions |
| `UriNormalizer.OrdinaryTarget` | handlers/request_logger_test.go:33-40 | an ordinary request gives path + `"?"` + raw query when the query is not empty, and the path alone otherwise; `uriPath` gives the path |
| `UriNormalizer.UriPathDropsQuery` | handlers/request_logger_test.go:70-77 | for an ordinary request, `uriPath` is `parseURI` cut at the first `?`, and the part after the cut is exactly the raw query |
| `UriNormalizer.ParseURIDeterminesPathAndQuery` | handlers/request_logger_test.go:33-40 | for ordinary requests whose paths contain no `?`, two targets are equal if and only if their paths (with `/` for an empty one) and their raw queries are equal |
| `UriNormalizer.ParseUriBasic` | handlers/request_logger_test.go:17-20 | `GET http://example.com` gives `"/"` |
| `UriNormalizer.ParseUriHttp2` | handlers/request_logger_test.go:21-32 | the HTTP/2 CONNECT case gives `"www.example.com:443"` |
| `UriNormalizer.ParseUriWithParams` | handlers/request_logger_test.go:33-36 | `GET http://example.com/path?query=value` gives `"/path?query=value"` |
| `UriNormalizer.ParseUriWithoutParams` | handlers/request_logger_test.go:37-40 | `GET http://example.com/path` gives `"/path"` |
| `UriNormalizer.UriPathBasic` | handlers/request_logger_test.go:54-57 | `GET http://example.cpom` gives `"/"` |
| `UriNormalizer.UriPathHttp2` | handlers/request_logger_test.go:58-69 | the HTTP/2 CONNECT case gives `"www.example.com:443"` |
| `UriNormalizer.UriPathWithParams` | handlers/request_logger_test.go:70-73 | `GET http://example.com/path?query=value` gives `"/path"` |
| `UriNormalizer.UriPathWithoutParams` | handlers/request_logger_test.go:74-77 | `GET http://example.com/path` gives `"/path"` |

## Left out

- `Then`, `ThenFunc` and `NewAPIKey` (handlers/auth/apikey.go:89-91, 116-118, 153-155) are not modelled separately. The first two only forward to `Handler`. `NewAPIKey` only fills the struct, which is the datatype constructor `ApiKey.APIKey`.
- `saveUser` (handlers/auth/apikey.go:146) stores the identity in the request's context through `net/http`. The model records only that the inner handler is called with the request and the identity (`Next(req, user)`).
- The Finder receives the `*http.Request` pointer (handlers/auth/apikey.go:141) and could change the request before the error handler or the inner handler reads it. In the model the Finder is a pure function of the key and the request value, so the later calls see the request unchanged.
- The error-handler collaborator is not run: only its call is recorded. What it writes to the response is its own business.
- The `http.Handler` / `HandlerFunc` plumbing, `ServeHTTP` and the response writer are not modelled.
- `ApiKey.CheckReadsFirstValueOnly` covers the guards only. Later `Authorization` values still reach the Finder and the inner handler inside the request, as they do in Go.
- The implementation file of `parseURI` / `uriPath` is not part of this model. The two functions are modelled from their tests and from how `url.URL.RequestURI` renders a path and a query. Not modelled: path escaping, opaque URLs, `ForceQuery`, and a raw request target the server may have recorded.
- The CONNECT case returns the URL's host. The tests set `Host` and `URL.Host` to the same value, so they do not say which of the two the implementation reads.
- `UriNormalizer.UriPathDropsQuery` requires that the path contains no `?`. The decoded path of a real URL could hold one, but `RequestURI` would escape it, and escaping is not modelled.
- UriNormalizer.ParseURIDeterminesPathAndQuery: requires paths without `?`, because path escaping is not modelled. Without the condition the statement is false in the model: path `/a?b` with no query renders like path `/a` with query `b`.
- The structured log sink (handlers/structured.go) is not modelled: it involves floating-point durations, time formatting and calls into a logging package. It fills its `http.uri` and `http.path` fields from `parseUri` and `uriPath` (lines 42 and 51).
- The statsd sink test (logging/statsd_test.go) is not modelled: it needs a UDP server, an external client and float formatting. `TestGetUserIP` is not modelled either: it needs `net.IP` parsing and an implementation that is not shown.
- Concurrency is not modelled. The middleware holds no state shared between requests.
- Strings are `seq<char>`, not Go byte strings. The only separator involved is the ASCII space, for which character and byte splitting agree.
