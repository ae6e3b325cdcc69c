/** The session and token lifecycle of models/Profile.ts: the expiry test of
    an access token, the credential exchange, the session cookie and the two
    operations of `Profile`, `validate` and `loginWithCredentials`.

    Outside effects are inputs: JWT decoding is a `Decoder`, the clock is a
    time in milliseconds, `fetch` is a function from request to result and the
    request's cookie store is a `CookieAccess`. */
module Profile {
  import opened Wrappers
  import Auth

  const SESSION_COOKIE_MAX_AGE_SECONDS: int := 3600
  const ACCESS_TOKEN_COOKIE_NAME := "shyftoff_access_token"
  const MILLISECONDS_PER_SECOND: nat := 1000
  const TOKEN_NOT_STRING := "Token must be a valid string"

  // ---------------------------------------------------------------------
  // Token codec and expiry

  /** The `exp` claim as `Number(payload.exp)` sees it: absent, coerced to
      NaN, or a finite number of seconds since the epoch. (A claim that is
      not a JSON number but coerces to one, such as `null` or `"17"`, is
      `Numeric` with the coerced value: the comparison coerces it the same
      way.) */
  datatype ExpClaim = Missing | NotNumeric | Numeric(seconds: real)

  /** The part of a decoded JWT payload this slice looks at. */
  datatype Payload = Payload(exp: ExpClaim)

  /** `decodeAccessToken`: the payload of a token, or `None` where decoding
      throws. The signature is not checked. */
  type Decoder = string -> Option<Payload>

  /** `Math.floor(Date.now() / 1000)`. */
  function NowSeconds(nowMs: nat): (seconds: nat)
    ensures seconds * MILLISECONDS_PER_SECOND <= nowMs < (seconds + 1) * MILLISECONDS_PER_SECOND
  {
    nowMs / MILLISECONDS_PER_SECOND
  }

  /** Whether a decoded payload is expired at `nowMs`: an undecodable token
      or one without a numeric `exp` is expired, and so is one whose `exp` is
      at or before the current whole second. */
  predicate IsExpired(payload: Option<Payload>, nowMs: nat): (expired: bool)
    ensures payload.None? ==> expired
    ensures payload.Some? && !payload.value.exp.Numeric? ==> expired
    ensures payload.Some? && payload.value.exp.Numeric? ==>
      (expired <==> (nowMs - nowMs % MILLISECONDS_PER_SECOND) as real >= 1000.0 * payload.value.exp.seconds)
  {
    match payload
    case None => true
    case Some(p) =>
      match p.exp
      case Missing => true
      case NotNumeric => true
      case Numeric(exp) => NowSeconds(nowMs) as real >= exp
  }

  /** `isAccessTokenExpired`. */
  predicate IsAccessTokenExpired(decode: Decoder, token: string, nowMs: nat): (expired: bool)
    ensures !expired <==>
      && decode(token).Some?
      && decode(token).value.exp.Numeric?
      && (NowSeconds(nowMs) as real) < decode(token).value.exp.seconds
  {
    IsExpired(decode(token), nowMs)
  }

  /** A token that cannot be decoded, or whose `exp` is absent or NaN, is
      expired at every time. */
  lemma UnusableTokenAlwaysExpired(decode: Decoder, token: string, nowMs: nat)
    requires decode(token).None? || !decode(token).value.exp.Numeric?
    ensures IsAccessTokenExpired(decode, token, nowMs)
  {
  }

  /** For a whole-second `exp`, the token is expired from the first
      millisecond of that second on, and usable at every earlier
      millisecond: the boundary second itself counts as expired. */
  lemma ExpiryBoundary(exp: int, nowMs: nat)
    ensures IsExpired(Some(Payload(Numeric(exp as real))), nowMs) <==> nowMs >= 1000 * exp
  {
  }

  /** Once expired, a token stays expired: the test is monotone in time. */
  lemma ExpiryIsMonotone(payload: Option<Payload>, nowMs: nat, laterMs: nat)
    requires nowMs <= laterMs
    requires IsExpired(payload, nowMs)
    ensures IsExpired(payload, laterMs)
  {
  }

  // ---------------------------------------------------------------------
  // Credential exchange (`getTokenFromBackend`)

  /** The classes of the values the exchange catches; all are `Error`s. */
  datatype ErrorKind = PlainError | TypeError | SyntaxError | ZodError

  datatype Error = Error(kind: ErrorKind, message: string)

  /** A JSON value as `response.json()` yields it. */
  datatype Json =
    | JNull
    | JBool(b: bool)
    | JNumber(n: real)
    | JString(s: string)
    | JArray(items: seq<Json>)
    | JObject(fields: map<string, Json>)

  /** The body of a response: JSON, or text `response.json()` rejects with
      a `SyntaxError` carrying the given message. */
  datatype Body = Parsed(json: Json) | Unparsable(syntaxError: string)

  /** The settled `fetch` promise: a rejection (a `TypeError`) or a
      response. */
  datatype FetchResult =
    | NetworkFailure(reason: string)
    | Response(ok: bool, statusText: string, body: Body)

  datatype Request = Request(url: string, httpMethod: string, contentType: string, body: Auth.Credentials)

  /** What `getTokenFromBackend` resolves to: the token string or an error
      value. It never rejects. */
  datatype TokenOutcome = Token(value: string) | TokenError(error: Error)

  /** The POST of the credentials, as JSON, to `<base URL>/api/tokens`. */
  function TokenRequest(baseUrl: string, credentials: Auth.Credentials): (r: Request)
    ensures |r.url| == |baseUrl| + 11 && r.url[..|baseUrl|] == baseUrl && r.url[|baseUrl|..] == "/api/tokens"
    ensures r.httpMethod == "POST" && r.contentType == "application/json"
    ensures r.body == credentials
  {
    Request(baseUrl + "/api/tokens", "POST", "application/json", credentials)
  }

  /** Zod's name for the type of a value it did not expect. */
  function TypeName(value: Json): string
  {
    match value
    case JNull => "null"
    case JBool(_) => "boolean"
    case JNumber(_) => "number"
    case JString(_) => "string"
    case JArray(_) => "array"
    case JObject(_) => "object"
  }

  /** `tokenSchema.parse(data).token`: the string at `token`, or the
      `ZodError` for the one issue found. A `ZodError`'s message is its issue
      list rendered as a JSON array. */
  function ParseTokenBody(data: Json): (r: Result<string, Error>)
    ensures r.Success? <==> data.JObject? && "token" in data.fields && data.fields["token"].JString?
    ensures r.Success? ==> r.value == data.fields["token"].s
    ensures r.Failure? ==> r.error.kind == ZodError && |r.error.message| > 0 && r.error.message[0] == '['
  {
    if !data.JObject? then
      Failure(Error(ZodError, ZodMessage([], "Expected object, received " + TypeName(data))))
    else if "token" in data.fields && data.fields["token"].JString? then
      Success(data.fields["token"].s)
    else
      Failure(Error(ZodError, ZodMessage(["token"], TOKEN_NOT_STRING)))
  }

  /** A one-issue `ZodError` message, reduced to the issue's path and
      message inside the brackets of a JSON array. */
  function ZodMessage(path: seq<string>, message: string): (m: string)
    ensures |m| > 0 && m[0] == '['
  {
    "[{\"path\":" + JoinPath(path) + ",\"message\":\"" + message + "\"}]"
  }

  function JoinPath(path: seq<string>): string
  {
    if path == [] then "[]" else "[\"" + path[0] + "\"]"
  }

  /** The chain after `fetch`: a non-ok response becomes an `Error` with the
      status text, an unparsable body the `SyntaxError`, a body without a
      string `token` the `ZodError`; a rejected fetch its `TypeError`. */
  function TokenFromResponse(response: FetchResult): (t: TokenOutcome)
    ensures response.NetworkFailure? ==> t == TokenError(Error(TypeError, response.reason))
    ensures response.Response? && response.ok && response.body.Unparsable? ==>
      t == TokenError(Error(SyntaxError, response.body.syntaxError))
    ensures response.Response? && response.ok && response.body.Parsed? && ParseTokenBody(response.body.json).Failure? ==>
      t == TokenError(ParseTokenBody(response.body.json).error)
  {
    match response
    case NetworkFailure(reason) => TokenError(Error(TypeError, reason))
    case Response(ok, statusText, body) =>
      if !ok then TokenError(Error(PlainError, statusText))
      else match body
        case Unparsable(message) => TokenError(Error(SyntaxError, message))
        case Parsed(data) =>
          match ParseTokenBody(data)
          case Success(token) => Token(token)
          case Failure(error) => TokenError(error)
  }

  /** `getTokenFromBackend`. */
  function GetTokenFromBackend(fetch: Request -> FetchResult, baseUrl: string, credentials: Auth.Credentials): (t: TokenOutcome)
    ensures var response := fetch(TokenRequest(baseUrl, credentials));
      t.Token? <==> response.Response? && response.ok && response.body.Parsed? && ParseTokenBody(response.body.json).Success?
    ensures t.Token? ==> t.value == ParseTokenBody(fetch(TokenRequest(baseUrl, credentials)).body.json).value
  {
    TokenFromResponse(fetch(TokenRequest(baseUrl, credentials)))
  }

  /** A token is obtained exactly from an ok response whose JSON body is an
      object with a string `token`, and it is that string. */
  lemma TokenObtainedIff(response: FetchResult)
    ensures TokenFromResponse(response).Token? <==>
      && response.Response?
      && response.ok
      && response.body.Parsed?
      && response.body.json.JObject?
      && "token" in response.body.json.fields
      && response.body.json.fields["token"].JString?
    ensures TokenFromResponse(response).Token? ==>
      TokenFromResponse(response).value == response.body.json.fields["token"].s
  {
  }

  /** Every failure is an error value: a non-ok response carries exactly its
      status text, whatever its body; a bad body in an ok response is a
      schema error. */
  lemma TokenFailures(response: FetchResult)
    ensures response.Response? && !response.ok ==>
      TokenFromResponse(response) == TokenError(Error(PlainError, response.statusText))
    ensures response.Response? && response.ok && response.body.Parsed? && TokenFromResponse(response).TokenError? ==>
      TokenFromResponse(response).error.kind == ZodError
  {
  }

  // ---------------------------------------------------------------------
  // Session cookie and cookie store

  /** A cookie as the store holds it; `maxAge` is absent on cookies that came
      with the request. */
  datatype Cookie = Cookie(name: string, value: string, httpOnly: bool, secure: bool, path: string, maxAge: Option<int>)

  /** The cookie `loginWithCredentials` writes. */
  function SessionCookie(token: string): (c: Cookie)
    ensures c.name == ACCESS_TOKEN_COOKIE_NAME && c.value == token
    ensures c.httpOnly && c.secure && c.path == "/"
    ensures c.maxAge == Some(3600)
  {
    Cookie(ACCESS_TOKEN_COOKIE_NAME, token, true, true, "/", Some(SESSION_COOKIE_MAX_AGE_SECONDS))
  }

  /** The jar after the session cookie is set: that one entry is added or
      replaced, every other cookie stays as it was. */
  function WithSession(jar: map<string, Cookie>, token: string): (r: map<string, Cookie>)
    ensures r.Keys == jar.Keys + {ACCESS_TOKEN_COOKIE_NAME}
    ensures forall name :: name in jar && name != ACCESS_TOKEN_COOKIE_NAME ==> r[name] == jar[name]
    ensures r[ACCESS_TOKEN_COOKIE_NAME] == Cookie("shyftoff_access_token", token, true, true, "/", Some(3600))
  {
    jar[ACCESS_TOKEN_COOKIE_NAME := SessionCookie(token)]
  }

  /** The request's cookie store, which `cookies.set` updates in place. */
  class CookieStore {
    var jar: map<string, Cookie>

    constructor (initial: map<string, Cookie>)
      ensures jar == initial
    {
      jar := initial;
    }

    /** `cookies.get(name)`. */
    function Get(name: string): (c: Option<Cookie>)
      reads this
      ensures c.Some? <==> name in jar
      ensures c.Some? ==> c.value == jar[name]
    {
      if name in jar then Some(jar[name]) else None
    }

    /** `cookies.set(cookie)`: adds or replaces the cookie of that name. */
    method Set(cookie: Cookie)
      modifies this
      ensures jar == old(jar)[cookie.name := cookie]
    {
      jar := jar[cookie.name := cookie];
    }
  }

  /** The settled `getCookies()` promise: rejected with an error, or the
      store. */
  datatype CookieAccess = Unavailable(error: Error) | Available(store: CookieStore)

  function StoreOf(access: CookieAccess): set<object>
  {
    if access.Available? then {access.store} else {}
  }

  // ---------------------------------------------------------------------
  // Profile.validate

  /** What `validate` resolves to: `false` or the token. */
  datatype Session = NoSession | ValidSession(token: string)

  /** `Profile.validate`: the stored access token when the store is readable
      and the token is present, non-empty and not expired; otherwise no
      session. */
  function Validate(access: CookieAccess, decode: Decoder, nowMs: nat): (s: Session)
    reads StoreOf(access)
    ensures access.Unavailable? ==> s == NoSession
    ensures access.Available? && ACCESS_TOKEN_COOKIE_NAME !in access.store.jar ==> s == NoSession
    ensures s.ValidSession? ==>
      && access.Available?
      && ACCESS_TOKEN_COOKIE_NAME in access.store.jar
      && s.token == access.store.jar[ACCESS_TOKEN_COOKIE_NAME].value
      && s.token != []
      && !IsAccessTokenExpired(decode, s.token, nowMs)
  {
    match access
    case Unavailable(_) => NoSession
    case Available(store) =>
      match store.Get(ACCESS_TOKEN_COOKIE_NAME)
      case None => NoSession
      case Some(cookie) =>
        if cookie.value == [] || IsAccessTokenExpired(decode, cookie.value, nowMs) then NoSession
        else ValidSession(cookie.value)
  }

  /** The converse: a readable store holding a non-empty, unexpired token
      yields exactly that token. */
  lemma ValidateReturnsStoredToken(access: CookieAccess, decode: Decoder, nowMs: nat)
    requires access.Available? && ACCESS_TOKEN_COOKIE_NAME in access.store.jar
    requires access.store.jar[ACCESS_TOKEN_COOKIE_NAME].value != []
    requires !IsAccessTokenExpired(decode, access.store.jar[ACCESS_TOKEN_COOKIE_NAME].value, nowMs)
    ensures Validate(access, decode, nowMs) == ValidSession(access.store.jar[ACCESS_TOKEN_COOKIE_NAME].value)
  {
  }

  /** A freshly written session cookie validates until the token's own
      expiry second begins (for a whole-second `exp`). */
  lemma FreshSessionValidUntilExp(store: CookieStore, decode: Decoder, token: string, exp: int, nowMs: nat)
    requires ACCESS_TOKEN_COOKIE_NAME in store.jar && store.jar[ACCESS_TOKEN_COOKIE_NAME] == SessionCookie(token)
    requires token != [] && decode(token) == Some(Payload(Numeric(exp as real)))
    ensures Validate(Available(store), decode, nowMs) == (if nowMs < 1000 * exp then ValidSession(token) else NoSession)
  {
    ExpiryBoundary(exp, nowMs);
  }

  // ---------------------------------------------------------------------
  // Profile.loginWithCredentials

  /** What `loginWithCredentials` produces: the error it returns, or the
      control transfer of `permanentRedirect`. */
  datatype LoginOutcome = Failed(error: Error) | Redirected(location: string)

  /** The decision of `loginWithCredentials` once both promises have
      settled: a cookie-store failure first, then a token failure, else the
      redirect to the root. */
  function LoginResult(token: TokenOutcome, access: CookieAccess): (r: LoginOutcome)
    ensures access.Unavailable? ==> r == Failed(access.error)
    ensures access.Available? && token.TokenError? ==> r == Failed(token.error)
    ensures r.Redirected? <==> access.Available? && token.Token?
    ensures r.Redirected? ==> r.location == "/"
  {
    if access.Unavailable? then Failed(access.error)
    else if token.TokenError? then Failed(token.error)
    else Redirected("/")
  }

  /** `Profile.loginWithCredentials`. Both promises of `Promise.all` have
      settled when the checks run, so the exchange result and the store are
      inputs. On success the store gains the session cookie and nothing
      else changes; on failure nothing is written. */
  method LoginWithCredentials(fetch: Request -> FetchResult, baseUrl: string, credentials: Auth.Credentials, access: CookieAccess)
    returns (r: LoginOutcome)
    modifies StoreOf(access)
    ensures r == LoginResult(GetTokenFromBackend(fetch, baseUrl, credentials), access)
    ensures access.Available? && r.Failed? ==> access.store.jar == old(access.store.jar)
    ensures access.Available? && r.Redirected? ==>
      access.store.jar == WithSession(old(access.store.jar), GetTokenFromBackend(fetch, baseUrl, credentials).value)
  {
    var token := GetTokenFromBackend(fetch, baseUrl, credentials);
    match access
    case Unavailable(error) =>
      r := Failed(error);
    case Available(store) =>
      if token.TokenError? {
        r := Failed(token.error);
      } else {
        store.Set(SessionCookie(token.value));
        r := Redirected("/");
      }
  }
}
