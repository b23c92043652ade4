/**
 * The request gate in front of every route: public paths and static
 * files pass; otherwise an unauthenticated API request gets 401 and an
 * unauthenticated page request is sent to the login page with its path
 * as the `redirect` parameter.
 */
module Middleware {
  import opened Wrappers
  import opened Strings
  import opened Http
  import opened Auth

  const PublicPaths: seq<string> := ["/login", "/api/auth/login", "/api/auth/logout", "/api/zoho/auth"]
  const UnauthorizedMessage: string := "Unauthorized. Please log in."

  /** `PUBLIC_PATHS.some((path) => pathname.startsWith(path))` */
  predicate IsPublic(pathname: string) {
    exists i :: 0 <= i < |PublicPaths| && IsPrefix(PublicPaths[i], pathname)
  }

  /** Next.js internals, the favicon and image files. */
  predicate IsStatic(pathname: string) {
    || IsPrefix("/_next", pathname)
    || IsPrefix("/favicon", pathname)
    || IsSuffix(".ico", pathname)
    || IsSuffix(".png", pathname)
    || IsSuffix(".svg", pathname)
    || IsSuffix(".jpg", pathname)
  }

  datatype Outcome =
    | Next
    | Unauthorized
    | RedirectToLogin(redirect: string)

  /** `middleware(request)`, given the path, the session cookie and the time. */
  function MiddlewareOf(pathname: string, cookie: Option<string>, now: int, env: AuthEnv): (o: Outcome)
    ensures IsPublic(pathname) || IsStatic(pathname) || IsRequestAuthenticated(cookie, now, env) <==> o == Next
    ensures o == Unauthorized <==> (!IsPublic(pathname) && !IsStatic(pathname)
      && !IsRequestAuthenticated(cookie, now, env) && IsPrefix("/api/", pathname))
    ensures o.RedirectToLogin? ==> o.redirect == pathname && !IsPrefix("/api/", pathname)
  {
    if IsPublic(pathname) then Next
    else if IsStatic(pathname) then Next
    else if !IsRequestAuthenticated(cookie, now, env) then
      if IsPrefix("/api/", pathname) then Unauthorized else RedirectToLogin(pathname)
    else Next
  }

  /** The 401 body an unauthenticated API request receives. */
  const UnauthorizedReply: Reply := ErrorReply(401, UnauthorizedMessage)

  /** With AUTH_PASSWORD unset every request passes. */
  lemma DisabledAuthPassesEverything(pathname: string, cookie: Option<string>, now: int, env: AuthEnv)
    requires !IsAuthEnabled(env)
    ensures MiddlewareOf(pathname, cookie, now, env) == Next
  {
  }

  /**
   * The cookie of a login lets every path through for seven days — when
   * the configured username has no colon.
   */
  lemma LoggedInPassesEverywhere(pathname: string, created: nat, now: int, env: AuthEnv)
    requires ':' !in CredentialsOf(env).username && now - created <= MaxAgeMillis
    ensures MiddlewareOf(pathname, Some(CreateSessionToken(CredentialsOf(env).username, created, env)), now, env) == Next
  {
    var username := CredentialsOf(env).username;
    TokenRoundTrip(username, created, now, env);
    assert |TokenData(username, created, Secret(env))| > 0;
  }

  /**
   * Without a session, paths are public by prefix: the OAuth routes under
   * /api/zoho/auth pass, and so does any path that merely starts with
   * "/login"; an image suffix passes even under /api/.
   */
  lemma PublicByPrefix(now: int, env: AuthEnv)
    ensures MiddlewareOf("/api/zoho/auth/callback", None, now, env) == Next
    ensures MiddlewareOf("/loginx", None, now, env) == Next
    ensures MiddlewareOf("/api/settings.png", None, now, env) == Next
  {
    assert IsPrefix(PublicPaths[3], "/api/zoho/auth/callback");
    assert IsPrefix(PublicPaths[0], "/loginx");
    assert IsSuffix(".png", "/api/settings.png");
  }
}
