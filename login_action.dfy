/** The login server action of actions/auth/Login.ts: it checks the
    credentials against the login schema, hands them to
    `Profile.loginWithCredentials` and turns an error into a message and an
    HTTP status. */
module LoginAction {
  import opened Wrappers
  import Auth
  import Profile

  /** `HttpStatusCode.UNAUTHORIZED` and `HttpStatusCode.INTERNAL_SERVER_ERROR`. */
  const UNAUTHORIZED := 401
  const INTERNAL_SERVER_ERROR := 500

  const UPSTREAM_UNAUTHORIZED := "Unauthorized"
  const INCORRECT_CREDENTIALS := "Your username or password is incorrect"
  const UNEXPECTED := "Something unexpected happened"

  /** The value `Profile.loginWithCredentials` hands back: an `Error` (a
      `ZodError` included), or some other value. */
  datatype Returned = ErrorValue(error: Profile.Error) | OtherValue

  /** The `{message, status}` object the action returns. */
  datatype ErrorResponse = ErrorResponse(message: string, status: int)

  /** How the action settles: the login schema throws (the action's promise
      rejects with the schema's issues), the redirect of a successful login
      propagates, or an error response is returned. */
  datatype ActionOutcome =
    | InvalidInput(issues: seq<Auth.Issue>)
    | Redirect(location: string)
    | Respond(response: ErrorResponse)

  /** The mapping of a returned value to a response: an error keeps its
      message unless it is exactly "Unauthorized", and always gets 401;
      anything else is the generic 500. */
  function MapLoginError(returned: Returned): (response: ErrorResponse)
    ensures response.status == UNAUTHORIZED || response.status == INTERNAL_SERVER_ERROR
    ensures response.status == UNAUTHORIZED <==> returned.ErrorValue?
    ensures returned.ErrorValue? && returned.error.message == UPSTREAM_UNAUTHORIZED ==>
      response.message == INCORRECT_CREDENTIALS
    ensures returned.ErrorValue? && returned.error.message != UPSTREAM_UNAUTHORIZED ==>
      response.message == returned.error.message
    ensures returned.OtherValue? ==> response.message == UNEXPECTED
  {
    match returned
    case ErrorValue(error) =>
      var message := if error.message == UPSTREAM_UNAUTHORIZED then INCORRECT_CREDENTIALS else error.message;
      ErrorResponse(message, UNAUTHORIZED)
    case OtherValue => ErrorResponse(UNEXPECTED, INTERNAL_SERVER_ERROR)
  }

  /** What the action settles to, given the exchange and the cookie store. */
  function ActionResult(fetch: Profile.Request -> Profile.FetchResult, baseUrl: string, credentials: Auth.Credentials, access: Profile.CookieAccess): (r: ActionOutcome)
    ensures Auth.ParseLogin(credentials).Failure? ==> r == InvalidInput(Auth.ParseLogin(credentials).error)
    ensures Auth.ParseLogin(credentials).Success? ==> !r.InvalidInput?
    ensures Auth.ParseLogin(credentials).Success? ==>
      (r == Redirect("/") <==> access.Available? && Profile.GetTokenFromBackend(fetch, baseUrl, credentials).Token?)
    ensures Auth.ParseLogin(credentials).Success? && access.Unavailable? ==>
      r == Respond(MapLoginError(ErrorValue(access.error)))
    ensures Auth.ParseLogin(credentials).Success? && access.Available? && Profile.GetTokenFromBackend(fetch, baseUrl, credentials).TokenError? ==>
      r == Respond(MapLoginError(ErrorValue(Profile.GetTokenFromBackend(fetch, baseUrl, credentials).error)))
  {
    match Auth.ParseLogin(credentials)
    case Failure(issues) => InvalidInput(issues)
    case Success(valid) =>
      match Profile.LoginResult(Profile.GetTokenFromBackend(fetch, baseUrl, valid), access)
      case Redirected(location) => Redirect(location)
      case Failed(error) => Respond(MapLoginError(ErrorValue(error)))
  }

  /** `loginWithCredentials`, the server action. Credentials that fail the
      schema never reach the exchange and leave the store as it was. */
  method LoginWithCredentials(fetch: Profile.Request -> Profile.FetchResult, baseUrl: string, credentials: Auth.Credentials, access: Profile.CookieAccess)
    returns (r: ActionOutcome)
    modifies Profile.StoreOf(access)
    ensures r == ActionResult(fetch, baseUrl, credentials, access)
    ensures access.Available? && !r.Redirect? ==> access.store.jar == old(access.store.jar)
    ensures access.Available? && r.Redirect? ==>
      access.store.jar == Profile.WithSession(old(access.store.jar), Profile.GetTokenFromBackend(fetch, baseUrl, credentials).value)
  {
    var parsed := Auth.ParseLogin(credentials);
    if parsed.Failure? {
      return InvalidInput(parsed.error);
    }
    var outcome := Profile.LoginWithCredentials(fetch, baseUrl, parsed.value, access);
    match outcome
    case Redirected(location) =>
      r := Redirect(location);
    case Failed(error) =>
      r := Respond(MapLoginError(ErrorValue(error)));
  }

  // ---------------------------------------------------------------------
  // Properties of the action

  /** Credentials the schema rejects settle the same way whatever the
      exchange endpoint or the store would have done: they never reach it. */
  lemma InvalidCredentialsNeverReachExchange(
    credentials: Auth.Credentials,
    fetch: Profile.Request -> Profile.FetchResult, fetch': Profile.Request -> Profile.FetchResult,
    baseUrl: string, baseUrl': string,
    access: Profile.CookieAccess, access': Profile.CookieAccess)
    requires Auth.ParsePassword(credentials.password).Failure?
    ensures ActionResult(fetch, baseUrl, credentials, access) == ActionResult(fetch', baseUrl', credentials, access')
    ensures ActionResult(fetch, baseUrl, credentials, access).InvalidInput?
  {
  }

  /** Every response the action returns carries 401: the profile only ever
      hands back `Error` values, so the 500 branch is not reached. */
  lemma ResponsesAreUnauthorized(fetch: Profile.Request -> Profile.FetchResult, baseUrl: string, credentials: Auth.Credentials, access: Profile.CookieAccess)
    ensures ActionResult(fetch, baseUrl, credentials, access).Respond? ==>
      ActionResult(fetch, baseUrl, credentials, access).response.status == UNAUTHORIZED
  {
  }

  /** A cookie-store failure wins over a failed exchange: its message is the
      one the user sees. */
  lemma CookieFailureReportedFirst(fetch: Profile.Request -> Profile.FetchResult, baseUrl: string, credentials: Auth.Credentials, error: Profile.Error)
    requires Auth.ParsePassword(credentials.password).Success?
    ensures ActionResult(fetch, baseUrl, credentials, Profile.Unavailable(error)) ==
      Respond(MapLoginError(ErrorValue(error)))
  {
  }

  /** A schema error from a malformed token response is never taken for an
      "Unauthorized" upstream answer: its own message is shown, with 401. */
  lemma SchemaErrorShownVerbatim(data: Profile.Json)
    requires Profile.ParseTokenBody(data).Failure?
    ensures MapLoginError(ErrorValue(Profile.ParseTokenBody(data).error)) ==
      ErrorResponse(Profile.ParseTokenBody(data).error.message, UNAUTHORIZED)
  {
  }

  /** End to end: with valid credentials, a readable store and an endpoint
      that answers 401 "Unauthorized", the user is told the credentials are
      incorrect. */
  lemma UnauthorizedEndToEnd(fetch: Profile.Request -> Profile.FetchResult, baseUrl: string, credentials: Auth.Credentials, store: Profile.CookieStore, body: Profile.Body)
    requires Auth.ParsePassword(credentials.password).Success?
    requires fetch(Profile.TokenRequest(baseUrl, credentials)) == Profile.Response(false, "Unauthorized", body)
    ensures ActionResult(fetch, baseUrl, credentials, Profile.Available(store)) ==
      Respond(ErrorResponse("Your username or password is incorrect", 401))
  {
  }

  /** End to end: a 502 "Bad Gateway" answer is shown as it is, still with
      status 401. */
  lemma BadGatewayEndToEnd(fetch: Profile.Request -> Profile.FetchResult, baseUrl: string, credentials: Auth.Credentials, store: Profile.CookieStore, body: Profile.Body)
    requires Auth.ParsePassword(credentials.password).Success?
    requires fetch(Profile.TokenRequest(baseUrl, credentials)) == Profile.Response(false, "Bad Gateway", body)
    ensures ActionResult(fetch, baseUrl, credentials, Profile.Available(store)) ==
      Respond(ErrorResponse("Bad Gateway", 401))
  {
  }

  /** End to end: an ok answer `{ "token": t }` logs the user in and sends
      them to the root. */
  lemma TokenEndToEnd(fetch: Profile.Request -> Profile.FetchResult, baseUrl: string, credentials: Auth.Credentials, store: Profile.CookieStore, token: string, statusText: string)
    requires Auth.ParsePassword(credentials.password).Success?
    requires fetch(Profile.TokenRequest(baseUrl, credentials)) ==
      Profile.Response(true, statusText, Profile.Parsed(Profile.JObject(map["token" := Profile.JString(token)])))
    ensures ActionResult(fetch, baseUrl, credentials, Profile.Available(store)) == Redirect("/")
    ensures Profile.GetTokenFromBackend(fetch, baseUrl, credentials) == Profile.Token(token)
  {
  }
}
