# Login slice: credential schema, session lifecycle, route gate

A Dafny model of the rules underneath a small Next.js login slice:

- **Credential schema** (`Auth`, from `validators/Auth.ts`): the five password
  rules (at least 8 UTF-16 code units, a digit `0-9`, one of
  `! " # $ % & ( ) * , . : < > ? @ ^ { | }`, a letter `a-z`, a letter `A-Z`),
  each with its own message. Every rule is checked and every broken rule
  reports its message, in chain order. The username accepts any string. The
  login schema combines the two fields.
- **Session and token lifecycle** (`Profile`, from `models/Profile.ts`): the
  expiry test of an access token, the exchange of credentials for a token,
  the session cookie, and the two operations of `Profile`. `validate` reads
  the session cookie. `loginWithCredentials` writes it and then redirects.
  JWT decoding is a `Decoder` parameter (`string -> Option<Payload>`), the
  clock is `nowMs: nat`, `fetch` is a function from request to result, and
  `getCookies()` is a `CookieAccess`: either unavailable with an error, or a
  `CookieStore` object whose `jar: map<string, Cookie>` is updated in place.
- **Route gate** (`Middleware`, from `middleware.ts`): four public path
  prefixes pass. Every other path passes only if `validate` yields a token,
  and is otherwise redirected to `/login`.
- **Login action** (`LoginAction`, from `actions/auth/Login.ts`): schema
  check, then the profile login, then the mapping of an error to
  `{message, status}`.
- **Environment schema** (`EnvironmentSchema`, from
  `validators/environment-variables/SchemaFromEnvironmentObject.ts`): every
  key of the environment object gets the default string validator, and the
  overrides win.

`Wrappers` holds the `Option` and `Result` types used throughout.

Behaviour of the code that is easy to misread:

- The username may be empty: `Zod.string()` accepts `""`.
- Credentials that fail the login schema do not produce a `{message, status}`
  value. `loginSchema.parse` throws, so the action's promise rejects. That
  contradicts the action's own "Never throws" comment. The model gives this
  case its own outcome, `InvalidInput`, and does not map it to 401.
- The 500 "Something unexpected happened" branch of the action is
  unreachable in the model. `Profile.loginWithCredentials` only ever hands
  back `Error` values or redirects (`LoginAction.ResponsesAreUnauthorized`).
- `.min(8)` counts UTF-16 code units, not characters. A six-character
  password that holds two emoji meets the length rule
  (`Auth.AstralCharactersCountTwice`).

## Model

| member | source | states |
|---|---|---|
| `Auth.Utf16Length` | validators/Auth.ts:27 | JavaScript length lies between the character count and twice it; it equals the character count when no character is outside the Basic Multilingual Plane; a single character counts 1, or 2 outside that plane |
| `Auth.Utf16Additive` | validators/Auth.ts:27 | the length of a concatenation is the sum of the lengths, so with the one-character values it is one unit per character plus one per character outside the Basic Multilingual Plane |
| `Auth.Holds` | validators/Auth.ts:27-31 | eight or more characters always meet the length rule and fewer than four never do; each regex rule holds iff some character of the password is in its class (`0-9`, the special set, `a-z`, `A-Z`) |
| `Auth.FailedRules` | validators/Auth.ts:25-31 | a rule is reported exactly when it is among the checked rules and the password breaks it, since every check of the chain runs; the reported rules keep the chain's order (they form a subsequence of it) |
| `Auth.FirstFailedRule` | validators/Auth.ts:27-31 | the first rule reported is the first rule of the chain the password breaks |
| `Auth.FirstMessageIsFirstBrokenRule` | validators/Auth.ts:27-31 | a rejected password's first message is the message of the first broken rule in the order length, digit, special, lowercase, uppercase |
| `Auth.ParsePassword` | validators/Auth.ts:25-31 | an accepted password is returned unchanged; a rejected one carries at least one message |
| `Auth.ParseUsername` | validators/Auth.ts:9-12 | every string is accepted, the empty string included |
| `Auth.ParseLogin` | validators/Auth.ts:33-36 | accepted credentials come back unchanged |
| `Auth.MessagesDistinct` | validators/Auth.ts:27-31 | the five rule messages are pairwise different |
| `Auth.PasswordAcceptedIff` | validators/Auth.ts:14-31 | a password is accepted iff length >= 8 and it has a digit, a special character, a lowercase and an uppercase letter |
| `Auth.RuleReportedIffBroken` | validators/Auth.ts:27-31 | each rule's message is reported iff that rule is broken, independently of the other rules |
| `Auth.OnlySpecialBroken` | validators/Auth.ts:29 | a password that breaks only the special-character rule is rejected with exactly that message |
| `Auth.HyphenUnderscorePlusAreNotSpecial` | validators/Auth.ts:29 | `Password1-_+` is rejected with only the special-character message: `-`, `_`, `+` are outside the class |
| `Auth.AstralCharactersCountTwice` | validators/Auth.ts:27 | a six-character password with two emoji is accepted, because the length rule counts code units |
| `Auth.LoginAcceptedIffPasswordAccepted` | validators/Auth.ts:33-36 | the login schema accepts iff the password is accepted, and its issues are exactly the password messages at path `password` |
| `Profile.NowSeconds` | models/Profile.ts:40-42 | the current whole second is the floor of the millisecond clock divided by 1000 |
| `Profile.IsExpired` | models/Profile.ts:36-44 | a missing payload or a missing or NaN `exp` is expired; otherwise expired iff the start of the current whole second, in milliseconds, is at or past `1000 * exp` |
| `Profile.IsAccessTokenExpired` | models/Profile.ts:33-45 | a token is unexpired iff it decodes, its `exp` is numeric, and the current whole second is before `exp` |
| `Profile.UnusableTokenAlwaysExpired` | models/Profile.ts:33-38 | an undecodable token, or one whose `exp` is absent or NaN, is expired at every time |
| `Profile.ExpiryBoundary` | models/Profile.ts:40-44 | for a whole-second `exp`, expired iff `nowMs >= 1000 * exp`: the `exp` second itself counts as expired |
| `Profile.ExpiryIsMonotone` | models/Profile.ts:40-44 | a token expired at some time stays expired at every later time |
| `Profile.TokenRequest` | models/Profile.ts:58-63 | the request is a POST of the credentials as JSON to the base URL followed by `/api/tokens` |
| `Profile.ParseTokenBody` | models/Profile.ts:54-56 | succeeds iff the body is an object with a string `token`, returning that string; otherwise a `ZodError` whose message is a JSON array |
| `Profile.TokenFromResponse` | models/Profile.ts:65-74 | a rejected fetch becomes its `TypeError`; an unparsable body of an ok response becomes its `SyntaxError`; a parsed body without a string `token` becomes the schema's `ZodError` |
| `Profile.GetTokenFromBackend` | models/Profile.ts:53-75 | the exchange yields a token iff the answer to the token request is ok and its JSON body passes the token schema, and the token is the schema's `token` |
| `Profile.TokenObtainedIff` | models/Profile.ts:65-74 | the exchange yields a token iff the response is ok and its JSON body is an object with a string `token`, and the token is that string |
| `Profile.TokenFailures` | models/Profile.ts:66-74 | a non-ok response fails with exactly its status text whatever the body; a bad JSON body in an ok response is a schema error |
| `Profile.SessionCookie` | models/Profile.ts:117-124 | the session cookie is named `shyftoff_access_token`, holds the token, and is httpOnly, secure, on path `/` with maxAge 3600 |
| `Profile.WithSession` | models/Profile.ts:117-124 | writing the session cookie adds or replaces the `shyftoff_access_token` entry (value = token, httpOnly, secure, path `/`, maxAge 3600) and keeps every other cookie |
| `Profile.CookieStore.Get` | models/Profile.ts:91 | `cookies.get` finds a cookie iff its name is in the jar, and returns that entry |
| `Profile.CookieStore.Set` | models/Profile.ts:117-124 | `cookies.set` replaces only the entry of the cookie's name |
| `Profile.Validate` | models/Profile.ts:85-97 | no session if the store is unavailable or the cookie is missing; a session is only ever the stored value itself, non-empty and unexpired |
| `Profile.ValidateReturnsStoredToken` | models/Profile.ts:91-96 | a readable store with a non-empty, unexpired token yields exactly that token |
| `Profile.FreshSessionValidUntilExp` | models/Profile.ts:93-96 | a stored session cookie validates before its token's `exp` second and not from then on |
| `Profile.LoginResult` | models/Profile.ts:111-127 | a cookie-store failure wins over a token failure; the outcome is a redirect to `/` iff both succeeded |
| `Profile.LoginWithCredentials` | models/Profile.ts:105-128 | the outcome is `LoginResult` of the exchange; on failure the jar is unchanged, and on success it gains only the session cookie |
| `Middleware.IsPublic` | middleware.ts:14-15 | a path is public iff it starts with `/login`, `/_next`, `/favicon.ico` or `/api/` |
| `Middleware.Gate` | middleware.ts:13-24 | each request gets exactly one decision: continue or redirect to `/login` |
| `Middleware.PublicPathAlwaysContinues` | middleware.ts:14-16 | a path starting with a public prefix continues whatever the store, decoder and time |
| `Middleware.ProtectedPathFollowsValidate` | middleware.ts:19-23 | for any other path, continue iff `validate` yields a token, and redirect to `/login` iff it yields `false` |
| `Middleware.UnavailableStoreRedirectsProtectedPaths` | middleware.ts:19-20 | without a readable cookie store only public paths continue |
| `Middleware.PrefixExamples` | middleware.ts:14-15 | `/loginfoo`, `/login/x`, `/api/tokens` are public; `/api`, `/`, `/dashboard` are not |
| `Middleware.ShortPathsNotPublic` | middleware.ts:14 | a path shorter than five characters matches no public prefix |
| `LoginAction.MapLoginError` | actions/auth/Login.ts:23-37 | an error gets status 401 and keeps its message unless it is exactly "Unauthorized", which becomes the incorrect-credentials message; any other value gets the generic message and 500 |
| `LoginAction.ActionResult` | actions/auth/Login.ts:20-38 | credentials the schema rejects settle as `InvalidInput` with the schema's issues; accepted ones redirect to `/` iff the store is readable and the exchange yields a token, and otherwise get the error mapping of the store's error, or failing that of the exchange's error |
| `LoginAction.LoginWithCredentials` | actions/auth/Login.ts:20-38 | the action settles as `ActionResult`; the jar changes only on a redirect, by the session cookie alone |
| `LoginAction.InvalidCredentialsNeverReachExchange` | actions/auth/Login.ts:21 | a rejected password settles as `InvalidInput` whatever the endpoint, base URL and cookie store |
| `LoginAction.ResponsesAreUnauthorized` | actions/auth/Login.ts:23-37 | every response the action returns has status 401 |
| `LoginAction.CookieFailureReportedFirst` | actions/auth/Login.ts:21-31 | with valid credentials, an unavailable cookie store is reported through the error mapping whatever the exchange answered |
| `LoginAction.SchemaErrorShownVerbatim` | actions/auth/Login.ts:23-31 | a schema error from a malformed token response is shown with its own message and 401 |
| `LoginAction.UnauthorizedEndToEnd` | actions/auth/Login.ts:23-31 | an endpoint answering non-ok "Unauthorized" yields "Your username or password is incorrect" with 401 |
| `LoginAction.BadGatewayEndToEnd` | actions/auth/Login.ts:24-31 | an endpoint answering non-ok "Bad Gateway" yields "Bad Gateway" with 401 |
| `LoginAction.TokenEndToEnd` | models/Profile.ts:117-127 | an ok answer `{ "token": t }` with valid credentials and a readable store yields the token `t` and the redirect to `/` |
| `EnvironmentSchema.ObjectKeys` | validators/environment-variables/SchemaFromEnvironmentObject.ts:31 | the keys are the object's property names, in order |
| `EnvironmentSchema.DefaultSchema` | validators/environment-variables/SchemaFromEnvironmentObject.ts:31-34 | the reduce maps exactly the listed keys, each to the plain string validator |
| `EnvironmentSchema.CreateSchema` | validators/environment-variables/SchemaFromEnvironmentObject.ts:36 | every object key is in the schema; an overridden key maps to its override; every other key maps to the plain string validator |
| `EnvironmentSchema.SchemaKeysAreUnion` | validators/environment-variables/SchemaFromEnvironmentObject.ts:36 | the schema's keys are the object's keys together with the override keys |
| `EnvironmentSchema.NoOverridesGivesDefaults` | validators/environment-variables/SchemaFromEnvironmentObject.ts:36 | without overrides the schema is exactly the plain string validator on each object key |
| `EnvironmentSchema.OnlyKeysMatter` | validators/environment-variables/SchemaFromEnvironmentObject.ts:31-34 | two objects with the same key set give the same schema, whatever their values and key order |

## Left out

- The React components, form state and rendering (`components/**`, `app/**`): presentation only.
- `lib/Utils.ts`, `eslint.config.ts`, `eslint/**`, `next.config.ts`: a class-name helper over libraries outside this model, and build configuration.
- `validators/environment-variables/Server.ts`: it reads `process.env` at startup and checks the URL with Zod's `.url()`. Both are outside the model.
- `validators/StatusCodes.ts`: only the two codes the action uses appear, as constants 401 and 500.
- JWT decoding (`jose.decodeJwt`): it is the `Decoder` parameter. Base64 and JSON decoding of the token are not modelled. The signature is not checked, as in the source.
- `fetch`, `response.json()`, `getCookies()` and `permanentRedirect`: they are inputs (`FetchResult`, `Body`, `CookieAccess`) and an outcome value (`Redirected`). `Promise.all` is modelled as two already-settled results, checked in the source's order. The request's JSON body encoding is not modelled.
- `Date.now()`: it is the `nowMs` parameter.
- Middleware.Gate: the redirect target is the path `/login`, not the absolute URL `new URL("/login", request.url)`. The framework's `matcher` regex at middleware.ts:30 is not modelled.
- Profile.ParseTokenBody: a `ZodError` message is modelled as the issue's path and message inside a JSON array. Zod's exact field layout and indentation are not modelled. Only the leading `[` is relied on.
- Profile.IsExpired: `exp` is a real number of seconds. NaN and non-numeric claims are `NotNumeric`. Floating-point rounding is not modelled.
- LoginAction.MapLoginError: a thrown value that is not an `Error` instance is not modelled. In the source such a value would reach `cookies.set` or be stored as a token.
- EnvironmentSchema.CreateSchema: an override key whose value is `undefined` is not modelled.
- Strings are sequences of Unicode scalar values, so unpaired UTF-16 surrogates cannot be represented.
