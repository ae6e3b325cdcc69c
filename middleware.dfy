/** The route gate of middleware.ts: public paths pass, every other path
    passes only with a valid session and is otherwise sent to the login
    page. */
module Middleware {
  import Profile

  const PUBLIC_PREFIXES := ["/login", "/_next", "/favicon.ico", "/api/"]
  const LOGIN_PATH := "/login"

  /** `NextResponse.next()` or `NextResponse.redirect` to a path. */
  datatype Decision = Next | RedirectTo(location: string)

  /** `publicPrefixes.some(prefix => pathname.startsWith(prefix))`. */
  predicate IsPublic(pathname: string): (public: bool)
    ensures public <==>
      || "/login" <= pathname
      || "/_next" <= pathname
      || "/favicon.ico" <= pathname
      || "/api/" <= pathname
  {
    assert PUBLIC_PREFIXES == [PUBLIC_PREFIXES[0], PUBLIC_PREFIXES[1], PUBLIC_PREFIXES[2], PUBLIC_PREFIXES[3]];
    exists i :: 0 <= i < |PUBLIC_PREFIXES| && PUBLIC_PREFIXES[i] <= pathname
  }

  /** The gate's decision. `validate` runs only for a path that is not
      public, and its result decides by truthiness: `false` redirects, a
      (non-empty) token continues. */
  function Gate(pathname: string, access: Profile.CookieAccess, decode: Profile.Decoder, nowMs: nat): (d: Decision)
    reads Profile.StoreOf(access)
    ensures d == Next || d == RedirectTo(LOGIN_PATH)
  {
    if IsPublic(pathname) then Next
    else match Profile.Validate(access, decode, nowMs)
      case NoSession => RedirectTo(LOGIN_PATH)
      case ValidSession(_) => Next
  }

  /** A public path continues whatever the session state: neither the store
      nor the decoder nor the time is consulted. */
  lemma PublicPathAlwaysContinues(pathname: string, access: Profile.CookieAccess, decode: Profile.Decoder, nowMs: nat)
    requires IsPublic(pathname)
    ensures Gate(pathname, access, decode, nowMs) == Next
  {
  }

  /** A path that is not public continues exactly when `validate` yields a
      token, and is redirected to `/login` exactly when it yields `false`. */
  lemma ProtectedPathFollowsValidate(pathname: string, access: Profile.CookieAccess, decode: Profile.Decoder, nowMs: nat)
    requires !IsPublic(pathname)
    ensures Gate(pathname, access, decode, nowMs) == Next <==> Profile.Validate(access, decode, nowMs).ValidSession?
    ensures Gate(pathname, access, decode, nowMs) == RedirectTo(LOGIN_PATH) <==> Profile.Validate(access, decode, nowMs) == Profile.NoSession
  {
  }

  /** A request with no readable cookie store reaches only public paths. */
  lemma UnavailableStoreRedirectsProtectedPaths(pathname: string, error: Profile.Error, decode: Profile.Decoder, nowMs: nat)
    ensures Gate(pathname, Profile.Unavailable(error), decode, nowMs) == (if IsPublic(pathname) then Next else RedirectTo(LOGIN_PATH))
  {
  }

  /** The test is a plain prefix test: `/loginfoo` and `/login/x` are public,
      while `/api` without its slash, `/` and `/dashboard` are not. */
  lemma PrefixExamples()
    ensures IsPublic("/loginfoo") && IsPublic("/login/x") && IsPublic("/api/tokens")
    ensures !IsPublic("/api") && !IsPublic("/") && !IsPublic("/dashboard")
  {
    assert PUBLIC_PREFIXES[0] <= "/loginfoo";
    assert PUBLIC_PREFIXES[0] <= "/login/x";
    assert PUBLIC_PREFIXES[3] <= "/api/tokens";
    assert !IsPublic("/api") by { ShortPathsNotPublic("/api"); }
    assert !IsPublic("/") by { ShortPathsNotPublic("/"); }
    assert !IsPublic("/dashboard") by {
      forall i | 0 <= i < |PUBLIC_PREFIXES|
        ensures !(PUBLIC_PREFIXES[i] <= "/dashboard")
      {
        assert PUBLIC_PREFIXES[i][1] != 'd';
      }
    }
  }

  /** A path shorter than every public prefix is not public. */
  lemma ShortPathsNotPublic(pathname: string)
    requires |pathname| < 5
    ensures !IsPublic(pathname)
  {
  }
}
