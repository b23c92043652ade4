/**
 * Password authentication from environment variables: the login
 * credentials (AUTH_USERNAME, default "admin", and AUTH_PASSWORD), the
 * session token, which is the base-64 text of
 * `username:timestamp:secret`, its verification against AUTH_SECRET and
 * a seven-day age limit, and the session cookie's settings. The clock
 * (`Date.now()`) is a parameter in milliseconds.
 */
module Auth {
  import opened Wrappers
  import opened Strings
  import Base64
  import Utf8
  import Seqs
  import opened SettingsHelper

  const SessionCookie: string := "ai-bookkeeper-session"
  /** Seven days, in seconds. */
  const SessionMaxAge: nat := 60 * 60 * 24 * 7
  const MaxAgeMillis: nat := SessionMaxAge * 1000
  const DefaultUsername: string := "admin"
  const DefaultSecret: string := "ai-bookkeeper-default-secret-change-me"

  /** The environment variables authentication reads. */
  datatype AuthEnv = AuthEnv(
    username: Option<string>,
    password: Option<string>,
    secret: Option<string>,
    production: bool)

  datatype Credentials = Credentials(username: string, password: string)

  /** `getCredentials()`: an unset or empty variable falls back to its default. */
  function CredentialsOf(env: AuthEnv): (c: Credentials)
    ensures Present(env.username) ==> c.username == env.username.value
    ensures !Present(env.username) ==> c.username == DefaultUsername
    ensures Present(env.password) <==> c.password != ""
  {
    Credentials(
      if Present(env.username) then env.username.value else DefaultUsername,
      if Present(env.password) then env.password.value else "")
  }

  /** `getSecret()` */
  function Secret(env: AuthEnv): (s: string)
    ensures s != ""
    ensures Present(env.secret) ==> s == env.secret.value
  {
    if Present(env.secret) then env.secret.value else DefaultSecret
  }

  /** The text a token encodes. */
  function TokenData(username: string, timestamp: nat, secret: string): string {
    username + ":" + NatToString(timestamp) + ":" + secret
  }

  /** `createSessionToken(username)` at time `now`. */
  function CreateSessionToken(username: string, now: nat, env: AuthEnv): (token: string)
    ensures |token| % 4 == 0
  {
    Base64.Encode(Utf8.Encode(TokenData(username, now, Secret(env))))
  }

  /** The text a token decodes to. */
  function Decoded(token: string): string {
    Utf8.Decode(Base64.Decode(token))
  }

  /** The third and later colon-separated pieces, joined again: where the secret sits. */
  function SecretField(parts: seq<string>): string
    requires |parts| >= 3
  {
    Join(parts[2..], ":")
  }

  datatype Verdict = Invalid | Valid(username: string)

  /**
   * `verifySessionToken(token)` at time `now`. A timestamp that does not
   * parse is NaN, and an age of NaN is never above the limit.
   */
  function VerifySessionToken(token: string, now: int, env: AuthEnv): (v: Verdict)
    ensures v.Valid? ==> ':' !in v.username
    ensures v.Valid? <==>
      var parts := Split(Decoded(token), ':');
      && |parts| >= 3
      && SecretField(parts) == Secret(env)
      && (ParseInt(parts[1]).Some? ==> now - ParseInt(parts[1]).value <= MaxAgeMillis)
    ensures v.Valid? ==> exists stamp: string ::
      Decoded(token) == v.username + ":" + stamp + ":" + Secret(env)
  {
    var parts := Split(Decoded(token), ':');
    if |parts| < 3 then Invalid
    else if SecretField(parts) != Secret(env) then Invalid
    else
      var timestamp := ParseInt(parts[1]);
      if timestamp.Some? && now - timestamp.value > MaxAgeMillis then Invalid
      else
        JoinThree(parts);
        Valid(parts[0])
  }

  /** Three or more pieces join as the first, the second and the rest. */
  lemma JoinThree(parts: seq<string>)
    requires |parts| >= 3
    ensures Join(parts, [':']) == parts[0] + ":" + parts[1] + ":" + SecretField(parts)
  {
    var rest := SecretField(parts);
    assert parts[1..][1..] == parts[2..];
    calc {
      Join(parts, [':']);
      parts[0] + ":" + Join(parts[1..], ":");
      parts[0] + ":" + (parts[1] + ":" + rest);
      { Seqs.AppendAssoc(parts[0] + ":", parts[1] + ":", rest); }
      (parts[0] + ":") + (parts[1] + ":") + rest;
      { Seqs.AppendAssoc(parts[0] + ":", parts[1], ":"); }
      parts[0] + ":" + parts[1] + ":" + rest;
    }
  }

  /** Without a colon in the username, the token splits into username, timestamp and the secret's own pieces. */
  lemma TokenDataParts(username: string, stamp: string, secret: string)
    requires ':' !in username && ':' !in stamp
    ensures Split(username + ":" + stamp + ":" + secret, ':') == [username, stamp] + Split(secret, ':')
  {
    assert username + ":" + stamp + ":" + secret == username + [':'] + (stamp + ":" + secret);
    SplitFirst(username, ':', stamp + ":" + secret);
    assert stamp + ":" + secret == stamp + [':'] + secret;
    SplitFirst(stamp, ':', secret);
  }

  lemma TokenDecodes(username: string, now: nat, env: AuthEnv)
    ensures Decoded(CreateSessionToken(username, now, env)) == TokenData(username, now, Secret(env))
  {
    var data := TokenData(username, now, Secret(env));
    Base64.DecodeEncode(Utf8.Encode(data));
    Utf8.DecodeEncode(data);
  }

  /** A token verifies, under the secret it was made with, as its username until it is seven days old. */
  lemma TokenRoundTrip(username: string, created: nat, now: int, env: AuthEnv)
    requires ':' !in username
    requires now - created <= MaxAgeMillis
    ensures VerifySessionToken(CreateSessionToken(username, created, env), now, env) == Valid(username)
  {
    TokenDecodes(username, created, env);
    var stamp := NatToString(created);
    TokenDataParts(username, stamp, Secret(env));
    var parts := [username, stamp] + Split(Secret(env), ':');
    assert parts[2..] == Split(Secret(env), ':');
    ParseIntNatToString(created);
  }

  /** A colon in the username moves the secret's start, so the token never verifies. */
  lemma ColonInUsernameNeverVerifies(username: string, created: nat, now: int, env: AuthEnv)
    requires ':' in username
    ensures VerifySessionToken(CreateSessionToken(username, created, env), now, env) == Invalid
  {
    TokenDecodes(username, created, env);
    var data := TokenData(username, created, Secret(env));
    var i :| 0 <= i < |username| && username[i] == ':';
    assert data[..|username|] == username;
    assert data[i] == ':' && data[|username|] == ':';
    SplitTailAfterTwo(data, ':', i, |username|);
  }

  /** Once more than seven days have passed, the token no longer verifies. */
  lemma ExpiredTokenRejected(username: string, created: nat, now: int, env: AuthEnv)
    requires now - created > MaxAgeMillis
    ensures VerifySessionToken(CreateSessionToken(username, created, env), now, env) == Invalid
  {
    if ':' in username {
      ColonInUsernameNeverVerifies(username, created, now, env);
    } else {
      TokenDecodes(username, created, env);
      var stamp := NatToString(created);
      TokenDataParts(username, stamp, Secret(env));
      ParseIntNatToString(created);
    }
  }

  /** A token made with one secret, for a username without a colon, does not verify under another. */
  lemma ForeignSecretRejected(username: string, created: nat, now: int, made: AuthEnv, env: AuthEnv)
    requires ':' !in username && Secret(made) != Secret(env)
    ensures VerifySessionToken(CreateSessionToken(username, created, made), now, env) == Invalid
  {
    TokenDecodes(username, created, made);
    var stamp := NatToString(created);
    TokenDataParts(username, stamp, Secret(made));
    var parts := [username, stamp] + Split(Secret(made), ':');
    assert parts[2..] == Split(Secret(made), ':');
  }

  /**
   * The secret travels in the token in the clear: whoever holds one
   * valid token reads the secret from it and can make a valid token for
   * any username without a colon and any recent time.
   */
  lemma TokenRevealsSecret(token: string, now: int, env: AuthEnv, username: string, created: nat)
    requires VerifySessionToken(token, now, env).Valid?
    requires ':' !in username && now - created <= MaxAgeMillis
    ensures var parts := Split(Decoded(token), ':');
      |parts| >= 3 && SecretField(parts) == Secret(env)
    ensures var forged := Base64.Encode(Utf8.Encode(TokenData(username, created, SecretField(Split(Decoded(token), ':')))));
      VerifySessionToken(forged, now, env) == Valid(username)
  {
    TokenRoundTrip(username, created, now, env);
  }

  /** `validateCredentials(username, password)` */
  function ValidateCredentials(username: string, password: string, env: AuthEnv): (ok: bool)
    ensures ok <==> (Present(env.password) && username == CredentialsOf(env).username
      && password == env.password.value)
  {
    var creds := CredentialsOf(env);
    if creds.password == "" then false
    else username == creds.username && password == creds.password
  }

  /** `isAuthEnabled()` */
  predicate IsAuthEnabled(env: AuthEnv) {
    Present(env.password)
  }

  /** With authentication off, no credentials are accepted; with AUTH_USERNAME unset only "admin" is. */
  lemma CredentialsNeedPassword(username: string, password: string, env: AuthEnv)
    ensures !IsAuthEnabled(env) ==> !ValidateCredentials(username, password, env)
    ensures ValidateCredentials(username, password, env) && !Present(env.username) ==> username == DefaultUsername
    ensures IsAuthEnabled(env) ==> ValidateCredentials(CredentialsOf(env).username, env.password.value, env)
  {
  }

  /** `isRequestAuthenticated(request)`, given the session cookie's value if one came. */
  function IsRequestAuthenticated(cookie: Option<string>, now: int, env: AuthEnv): (ok: bool)
    ensures !IsAuthEnabled(env) ==> ok
    ensures IsAuthEnabled(env) && !Present(cookie) ==> !ok
    ensures IsAuthEnabled(env) && Present(cookie) ==> (ok <==> VerifySessionToken(cookie.value, now, env).Valid?)
  {
    if !IsAuthEnabled(env) then true
    else if !Present(cookie) then false
    else VerifySessionToken(cookie.value, now, env).Valid?
  }

  datatype CookieConfig = CookieConfig(
    name: string, maxAge: nat, httpOnly: bool, secure: bool, sameSite: string, path: string)

  /** `getSessionCookieConfig()`: secure only in production. */
  function SessionCookieConfig(env: AuthEnv): (c: CookieConfig)
    ensures c.name == SessionCookie && c.maxAge == SessionMaxAge && c.httpOnly
    ensures c.secure <==> env.production
    ensures c.sameSite == "lax" && c.path == "/"
  {
    CookieConfig(SessionCookie, SessionMaxAge, true, env.production, "lax", "/")
  }
}
