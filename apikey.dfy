/**
 * The API-key authentication middleware (`APIKey.Handler`).
 *
 * For every request the wrapped handler runs a straight chain of guards on the
 * `Authorization` header — present, exactly two space-separated tokens, first
 * token equal to the configured provider — then asks the Finder collaborator to
 * resolve the second token. It leaves by exactly one of two exits: the error
 * handler is called with a typed error and status 401, or the inner handler is
 * called with the found identity attached to the request.
 *
 * The collaborators (Finder, error handler, inner handler) are not run here: the
 * model returns the sequence of calls the middleware makes to them, in order.
 */
module ApiKey {
  import opened GoStrings
  import opened Http

  datatype Result<T, E> = Ok(value: T) | Err(error: E)

  /** `http.StatusUnauthorized`, the status of every failure exit. */
  const StatusUnauthorized: int := 401

  /** The header the middleware reads. */
  const AuthorizationHeader: string := "Authorization"

  /** The format quoted back in an InvalidFormat error. */
  const ExpectedFormat: string := "<provider> <apiKey>"

  /** An `error` value returned by the Finder; only its `Error()` text is observable. */
  datatype FindError = FindError(message: string)

  /** What `Finder.Find` returns: an identity (opaque to the middleware) or an error. */
  datatype FindResult<U> = Found(user: U) | NotFound(err: FindError)

  /** The four typed authentication errors and their payloads. */
  datatype AuthError =
    | NoHeader
    | InvalidFormat(format: string, header: string)
    | BadProvider(provider: string, expected: string)
    | InvalidKey(key: string, err: FindError)

  /**
   * The middleware's configuration: the provider name (which must not contain a
   * space) and the Finder, which receives the key and the request. The error
   * handler is not a value here: its calls appear in the returned trace.
   */
  datatype APIKey<U> = APIKey(provider: string, finder: (string, Request) -> FindResult<U>)

  /** One call the middleware makes to a collaborator. */
  datatype Call<U> =
    | Find(key: string, req: Request)                          // a.Finder.Find(value, req)
    | OnError(req: Request, err: AuthError, status: int)      // a.OnError.Handle(w, req, err, status)
    | Next(req: Request, user: U)                             // h.ServeHTTP(w, saveUser(req, user))

  predicate IsExit<U>(c: Call<U>) {
    c.OnError? || c.Next?
  }

  /**
   * The guard chain before the Finder: the key to look up, or the error that
   * stops the request. Only `header[0]` is examined.
   */
  function Check(header: seq<string>, provider: string): (r: Result<string, AuthError>)
    ensures r == Err(NoHeader) <==> |header| == 0
    ensures r.Ok? ==> |header| > 0 && header[0] == provider + " " + r.value && ' ' !in r.value
    ensures r.Err? ==> !r.error.InvalidKey?
  {
    if |header| == 0 then Err(NoHeader)
    else
      var parts := Split(header[0], ' ');
      JoinSplit(header[0], ' ');
      if |parts| != 2 then Err(InvalidFormat(ExpectedFormat, header[0]))
      else if parts[0] != provider then Err(BadProvider(parts[0], provider))
      else Ok(parts[1])
  }

  /**
   * The handler returned by `a.Handler(h)`, applied to one request: the calls
   * it makes to the Finder, the error handler and the inner handler `h`.
   */
  function Handle<U>(a: APIKey<U>, req: Request): (calls: seq<Call<U>>)
    // one exit, taken last; everything before it is a Finder lookup, at most one
    ensures 1 <= |calls| <= 2
    ensures IsExit(calls[|calls| - 1])
    ensures forall i :: 0 <= i < |calls| - 1 ==> calls[i].Find?
    // the Finder and the error handler get the incoming request; the inner handler
    // gets it too, with the identity attached (Next(req, user) stands for that call)
    ensures forall i :: 0 <= i < |calls| ==> calls[i].req == req
    // every failure exit carries 401
    ensures forall i :: 0 <= i < |calls| && calls[i].OnError? ==> calls[i].status == StatusUnauthorized
    // the Finder is asked only once the guards pass, and with the second token
    ensures forall i :: 0 <= i < |calls| && calls[i].Find? ==>
      Check(HeaderValues(req, AuthorizationHeader), a.provider) == Ok(calls[i].key)
    // the inner handler runs only with the identity the Finder returned
    ensures calls[|calls| - 1].Next? ==>
      |calls| == 2 && a.finder(calls[0].key, req) == Found(calls[1].user)
  {
    match Check(HeaderValues(req, AuthorizationHeader), a.provider)
    case Err(e) => [OnError(req, e, StatusUnauthorized)]
    case Ok(key) =>
      match a.finder(key, req)
      case NotFound(err) => [Find(key, req), OnError(req, InvalidKey(key, err), StatusUnauthorized)]
      case Found(user) => [Find(key, req), Next(req, user)]
  }

  // ---------------------------------------------------------------------------
  // The guard chain
  // ---------------------------------------------------------------------------

  /** Values after the first never change what the guards decide. */
  lemma CheckReadsFirstValueOnly(first: string, more: seq<string>, provider: string)
    ensures Check([first] + more, provider) == Check([first], provider)
  {
  }

  /**
   * The format guard fails exactly when the first value does not hold exactly one
   * space, and then it reports the expected format and the raw value.
   */
  lemma CheckInvalidFormat(header: seq<string>, provider: string)
    ensures (Check(header, provider).Err? && Check(header, provider).error.InvalidFormat?)
        <==> (|header| > 0 && Count(header[0], ' ') != 1)
    ensures |header| > 0 && Count(header[0], ' ') != 1 ==>
      Check(header, provider) == Err(InvalidFormat(ExpectedFormat, header[0]))
  {
  }

  /**
   * The provider guard: with exactly two tokens, a first token other than the
   * configured provider is reported with the received and the expected name.
   */
  lemma CheckBadProvider(header: seq<string>, provider: string, received: string, key: string)
    requires |header| > 0 && Split(header[0], ' ') == [received, key]
    ensures Check(header, provider).Err? && Check(header, provider).error.BadProvider?
        <==> received != provider
    ensures received != provider ==> Check(header, provider) == Err(BadProvider(received, provider))
  {
  }

  /**
   * The guards let a request through with key `k` exactly when the first value is
   * `provider + " " + k` and neither part contains a space.
   */
  lemma {:induction false} CheckAcceptsExactly(header: seq<string>, provider: string, k: string)
    ensures Check(header, provider) == Ok(k)
        <==> (|header| > 0 && header[0] == provider + " " + k && ' ' !in provider && ' ' !in k)
  {
    if |header| > 0 && header[0] == provider + " " + k && ' ' !in provider && ' ' !in k {
      SplitPair(provider, k, ' ');
    }
    if Check(header, provider) == Ok(k) {
      var parts := Split(header[0], ' ');
      assert parts == [provider, k];
      JoinSplit(header[0], ' ');
      assert ' ' !in parts[0] && ' ' !in parts[1];
    }
  }

  /** Round trip: a well-formed value with the right provider yields exactly its key. */
  lemma CheckRoundTrip(provider: string, k: string, more: seq<string>)
    requires ' ' !in provider && ' ' !in k
    ensures Check([provider + " " + k] + more, provider) == Ok(k)
  {
    CheckAcceptsExactly([provider + " " + k] + more, provider, k);
  }

  /** A provider name containing a space can never be matched. */
  lemma ProviderWithSpaceRejectsAll(header: seq<string>, provider: string)
    requires ' ' in provider
    ensures Check(header, provider).Err?
  {
    if Check(header, provider).Ok? {
      CheckAcceptsExactly(header, provider, Check(header, provider).value);
    }
  }

  // ---------------------------------------------------------------------------
  // The handler's exits
  // ---------------------------------------------------------------------------

  /** No `Authorization` values: NoHeader, 401; neither Finder nor inner handler runs. */
  lemma HandleNoHeader<U>(a: APIKey<U>, req: Request)
    requires HeaderValues(req, AuthorizationHeader) == []
    ensures Handle(a, req) == [OnError(req, NoHeader, StatusUnauthorized)]
  {
  }

  /** Any guard failure is the only call: the Finder is not asked. */
  lemma HandleRejectsBeforeLookup<U>(a: APIKey<U>, req: Request)
    requires Check(HeaderValues(req, AuthorizationHeader), a.provider).Err?
    ensures Handle(a, req) ==
      [OnError(req, Check(HeaderValues(req, AuthorizationHeader), a.provider).error, StatusUnauthorized)]
  {
  }

  /** A Finder error becomes InvalidKey with the key and that error, status 401. */
  lemma HandleInvalidKey<U>(a: APIKey<U>, req: Request, k: string, e: FindError)
    requires Check(HeaderValues(req, AuthorizationHeader), a.provider) == Ok(k)
    requires a.finder(k, req) == NotFound(e)
    ensures Handle(a, req) == [Find(k, req), OnError(req, InvalidKey(k, e), StatusUnauthorized)]
  {
  }

  /** A found identity is attached and the inner handler runs; the error handler does not. */
  lemma HandleServes<U>(a: APIKey<U>, req: Request, k: string, u: U)
    requires Check(HeaderValues(req, AuthorizationHeader), a.provider) == Ok(k)
    requires a.finder(k, req) == Found(u)
    ensures Handle(a, req) == [Find(k, req), Next(req, u)]
    ensures forall i :: 0 <= i < |Handle(a, req)| ==> !Handle(a, req)[i].OnError?
  {
  }

  /**
   * The inner handler runs exactly when the first value is `provider + " " + k`
   * (no spaces in either part) and the Finder knows `k`.
   */
  lemma HandleServesExactly<U>(a: APIKey<U>, req: Request)
    ensures Handle(a, req)[|Handle(a, req)| - 1].Next?
        <==> exists k :: Check(HeaderValues(req, AuthorizationHeader), a.provider) == Ok(k)
                      && a.finder(k, req).Found?
  {
  }

  /** The Finder receives exactly the key of a `provider + " " + k` value. */
  lemma HandleLooksUpKey<U>(a: APIKey<U>, req: Request, k: string, more: seq<string>)
    requires ' ' !in a.provider && ' ' !in k
    requires HeaderValues(req, AuthorizationHeader) == [a.provider + " " + k] + more
    ensures Handle(a, req)[0] == Find(k, req)
  {
    CheckRoundTrip(a.provider, k, more);
  }

  // ---------------------------------------------------------------------------
  // Error messages
  // ---------------------------------------------------------------------------

  const NoHeaderMessage: string := "no Authorization header provided"
  // (long literals are written as two pieces so that the verifier can see their characters)
  const InvalidFormatPrefix: string := "provided Authorization header " + "in invalid format, expecting: "
  const BadProviderPrefix: string := "Authroziation provider does not match." + " Expecting: "
  const InvalidKeyPrefix: string := "provided api key: '"
  const GotInfix: string := " got: "
  const NotValidInfix: string := "' is not valid: "

  /**
   * The `Error()` method of each error type: a fixed text with the payload
   * embedded, InvalidFormat's format before its header, BadProvider's expected
   * provider before the received one, InvalidKey's key before the cause's text.
   */
  function ErrorMessage(e: AuthError): (m: string)
    ensures e.NoHeader? ==> m == NoHeaderMessage
    ensures e.InvalidFormat? ==>
      InvalidFormatPrefix + e.format + GotInfix <= m
      && m[|InvalidFormatPrefix + e.format + GotInfix|..] == e.header
    ensures e.BadProvider? ==>
      BadProviderPrefix + e.expected + GotInfix <= m
      && m[|BadProviderPrefix + e.expected + GotInfix|..] == e.provider
    ensures e.InvalidKey? ==>
      InvalidKeyPrefix + e.key + NotValidInfix <= m
      && m[|InvalidKeyPrefix + e.key + NotValidInfix|..] == e.err.message
  {
    match e
    case NoHeader => NoHeaderMessage
    case InvalidFormat(format, header) => InvalidFormatPrefix + format + GotInfix + header
    case BadProvider(provider, expected) => BadProviderPrefix + expected + GotInfix + provider
    case InvalidKey(key, err) => InvalidKeyPrefix + key + NotValidInfix + err.message
  }

  datatype ErrorKind = NoHeaderKind | InvalidFormatKind | BadProviderKind | InvalidKeyKind

  function KindOf(e: AuthError): ErrorKind {
    match e
    case NoHeader => NoHeaderKind
    case InvalidFormat(_, _) => InvalidFormatKind
    case BadProvider(_, _) => BadProviderKind
    case InvalidKey(_, _) => InvalidKeyKind
  }

  /** Reads the error kind back from a message: its first and tenth characters suffice. */
  function KindOfMessage(m: string): ErrorKind
    requires |m| >= 10
  {
    if m[0] == 'n' then NoHeaderKind
    else if m[0] == 'A' then BadProviderKind
    else if m[9] == 'A' then InvalidFormatKind
    else InvalidKeyKind
  }

  /** Every message names its error kind: the four messages never coincide across kinds. */
  lemma ErrorMessageNamesKind(e: AuthError)
    ensures |ErrorMessage(e)| >= 10 && KindOfMessage(ErrorMessage(e)) == KindOf(e)
  {
    var m := ErrorMessage(e);
    match e
    case NoHeader =>
    case InvalidFormat(f, h) =>
      assert InvalidFormatPrefix <= InvalidFormatPrefix + f + GotInfix <= m;
      assert InvalidFormatPrefix[0] == 'p' && InvalidFormatPrefix[9] == 'A';
    case BadProvider(p, x) =>
      assert BadProviderPrefix <= BadProviderPrefix + x + GotInfix <= m;
      assert BadProviderPrefix[0] == 'A';
    case InvalidKey(k, err) =>
      assert InvalidKeyPrefix <= InvalidKeyPrefix + k + NotValidInfix <= m;
      assert InvalidKeyPrefix[0] == 'p' && InvalidKeyPrefix[9] == 'a';
  }

  lemma ErrorMessageDistinguishesKinds(e1: AuthError, e2: AuthError)
    requires ErrorMessage(e1) == ErrorMessage(e2)
    ensures KindOf(e1) == KindOf(e2)
  {
    ErrorMessageNamesKind(e1);
    ErrorMessageNamesKind(e2);
  }

  /** `a + x == a + y` forces `x == y`. */
  lemma CancelPrefix(a: string, x: string, y: string)
    requires a + x == a + y
    ensures x == y
  {
    assert x == (a + x)[|a|..];
    assert y == (a + y)[|a|..];
  }

  /** For a fixed format, the InvalidFormat message determines the raw header. */
  lemma InvalidFormatMessageKeepsHeader(format: string, h1: string, h2: string)
    requires ErrorMessage(InvalidFormat(format, h1)) == ErrorMessage(InvalidFormat(format, h2))
    ensures h1 == h2
  {
    CancelPrefix(InvalidFormatPrefix + format + GotInfix, h1, h2);
  }

  /** For a fixed expected provider, the BadProvider message determines the received one. */
  lemma BadProviderMessageKeepsProvider(expected: string, p1: string, p2: string)
    requires ErrorMessage(BadProvider(p1, expected)) == ErrorMessage(BadProvider(p2, expected))
    ensures p1 == p2
  {
    CancelPrefix(BadProviderPrefix + expected + GotInfix, p1, p2);
  }

  /** For a fixed key, the InvalidKey message determines the wrapped error's text. */
  lemma InvalidKeyMessageKeepsCause(key: string, e1: FindError, e2: FindError)
    requires ErrorMessage(InvalidKey(key, e1)) == ErrorMessage(InvalidKey(key, e2))
    ensures e1 == e2
  {
    CancelPrefix(InvalidKeyPrefix + key + NotValidInfix, e1.message, e2.message);
  }

  // ---------------------------------------------------------------------------
  // Worked cases of the middleware's behaviour
  // ---------------------------------------------------------------------------

  /** A value with no space is a single token. */
  lemma OneTokenExample()
    ensures Check(["onlyonetoken"], "Graze") == Err(InvalidFormat(ExpectedFormat, "onlyonetoken"))
  {
    SplitWithoutSeparator("onlyonetoken", ' ');
  }

  /** An empty value is a single (empty) token. */
  lemma EmptyValueExample()
    ensures Check([""], "Graze") == Err(InvalidFormat(ExpectedFormat, ""))
  {
  }

  /** Two spaces make three tokens. */
  lemma ThreeTokensExample()
    ensures Check(["a b c"], "Graze") == Err(InvalidFormat(ExpectedFormat, "a b c"))
  {
    assert "a b c" == "a" + [' '] + ("b" + [' '] + "c");
    SplitAfterFirst("a", "b c", ' ');
    SplitPair("b", "c", ' ');
  }

  /** Adjacent spaces are two separators with an empty token between them. */
  lemma DoubleSpaceSplitsInThree()
    ensures Split("Graze  key", ' ') == ["Graze", "", "key"]
  {
    assert " key" == "" + [' '] + "key";
    SplitPair("", "key", ' ');
    assert "Graze  key" == "Graze" + [' '] + " key";
    SplitAfterFirst("Graze", " key", ' ');
  }

  lemma DoubleSpaceExample()
    ensures Check(["Graze  key"], "Graze") == Err(InvalidFormat(ExpectedFormat, "Graze  key"))
  {
    DoubleSpaceSplitsInThree();
  }

  /** A trailing space gives an empty second token, which passes the guards. */
  lemma TrailingSpaceGivesEmptyKey()
    ensures Split("Graze ", ' ') == ["Graze", ""]
    ensures Check(["Graze "], "Graze") == Ok("")
  {
    assert "Graze " == "Graze" + [' '] + "";
    SplitPair("Graze", "", ' ');
  }

  /** A well-formed value naming another provider. */
  lemma WrongProviderExample()
    ensures Check(["Wrong key"], "Graze") == Err(BadProvider("Wrong", "Graze"))
  {
    assert "Wrong key" == "Wrong" + [' '] + "key";
    SplitPair("Wrong", "key", ' ');
  }

  /** A Finder over a fixed table of users, as in the middleware's usage notes. */
  function TableFinder(users: map<string, string>): (f: (string, Request) -> FindResult<string>)
    ensures forall key, r :: f(key, r).Found? <==> key in users
    ensures forall key, r :: f(key, r).Found? ==> f(key, r).user == users[key]
    ensures forall key, r :: f(key, r).NotFound? ==> f(key, r).err == NoUserError(key)
  {
    (key: string, r: Request) =>
      if key in users then Found(users[key]) else NotFound(NoUserError(key))
  }

  function NoUserError(key: string): FindError
  {
    FindError("No user found for: " + key)
  }

  function AuthorizedRequest(value: string): Request
  {
    Request("GET", 1, URL("example.com", "/thing", ""), map[AuthorizationHeader := [value]])
  }

  /** The two well-formed values of the examples below pass the guards. */
  lemma BadKeyPassesGuards()
    ensures Check(["Graze badkey"], "Graze") == Ok("badkey")
  {
    assert "Graze" + " " + "badkey" == "Graze badkey";
    CheckRoundTrip("Graze", "badkey", []);
  }

  lemma GoodKeyPassesGuards()
    ensures Check(["Graze goodkey"], "Graze") == Ok("goodkey")
  {
    assert "Graze" + " " + "goodkey" == "Graze goodkey";
    CheckRoundTrip("Graze", "goodkey", []);
  }

  /** A key the table does not hold reaches the error handler as InvalidKey. */
  lemma UnknownKeyExample(a: APIKey<string>, req: Request)
    requires a == APIKey("Graze", TableFinder(map["goodkey" := "alice"]))
    requires req == AuthorizedRequest("Graze badkey")
    ensures Handle(a, req) ==
      [Find("badkey", req), OnError(req, InvalidKey("badkey", NoUserError("badkey")), StatusUnauthorized)]
  {
    BadKeyPassesGuards();
    HandleInvalidKey(a, req, "badkey", NoUserError("badkey"));
  }

  /** A key the table holds reaches the inner handler with its user attached. */
  lemma KnownKeyExample(a: APIKey<string>, req: Request)
    requires a == APIKey("Graze", TableFinder(map["goodkey" := "alice"]))
    requires req == AuthorizedRequest("Graze goodkey")
    ensures Handle(a, req) == [Find("goodkey", req), Next(req, "alice")]
  {
    GoodKeyPassesGuards();
    HandleServes(a, req, "goodkey", "alice");
  }
}
