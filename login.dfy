/**
 * The login route: POST /api/auth/login checks the posted username and
 * password against the configured credentials and, when they match,
 * answers with a session cookie holding a fresh token.
 */
module Login {
  import opened Wrappers
  import opened Json
  import opened Http
  import opened SettingsHelper
  import opened Auth

  /** How a login attempt ends. */
  datatype Outcome =
    | Disabled
    | Crashed
    | Missing
    | Rejected
    | LoggedIn(username: string)

  /** `response.cookies.set(name, value, options)` */
  datatype SetCookie = SetCookie(value: string, config: CookieConfig)

  datatype LoginReply = LoginReply(reply: Reply, cookie: Option<SetCookie>)

  /**
   * The decision the route takes on the posted body. An unreadable body
   * or a body of `null` makes the destructuring throw; a field that is
   * not a string never equals the configured credentials.
   */
  function LoginOf(body: Result<Json, Thrown>, env: AuthEnv): (o: Outcome)
    ensures o == Disabled <==> !IsAuthEnabled(env)
    ensures o == Crashed <==> IsAuthEnabled(env) && (body.Err? || body.value == JNull || body.value == JUndefined)
    ensures o == Missing <==> (IsAuthEnabled(env) && body.Ok? && body.value != JNull && body.value != JUndefined
      && !(Truthy(Get(body.value, "username")) && Truthy(Get(body.value, "password"))))
    ensures o.LoggedIn? ==> (body.Ok? && Get(body.value, "username") == JStr(o.username)
      && Get(body.value, "password") == JStr(env.password.value)
      && o.username == CredentialsOf(env).username)
    ensures o.LoggedIn? ==> ValidateCredentials(o.username, env.password.value, env)
  {
    if !IsAuthEnabled(env) then Disabled
    else if body.Err? || body.value == JNull || body.value == JUndefined then Crashed
    else
      var username := Get(body.value, "username");
      var password := Get(body.value, "password");
      if !Truthy(username) || !Truthy(password) then Missing
      else if !(username.JStr? && password.JStr? && ValidateCredentials(username.s, password.s, env)) then Rejected
      else LoggedIn(username.s)
  }

  /** The posted username and password get in exactly when they are the configured ones. */
  lemma LoginAcceptsExactlyTheCredentials(username: string, password: string, env: AuthEnv)
    requires IsAuthEnabled(env)
    ensures var body := Ok(JObj(map["username" := JStr(username), "password" := JStr(password)]));
      LoginOf(body, env).LoggedIn? <==>
        username == CredentialsOf(env).username && password == env.password.value
  {
    var body := JObj(map["username" := JStr(username), "password" := JStr(password)]);
    assert Get(body, "username") == JStr(username);
    assert Get(body, "password") == JStr(password);
  }

  /** The reply and cookie the route sends for an outcome, with the token stamped at `now`. */
  function ReplyOf(o: Outcome, now: nat, env: AuthEnv): (r: LoginReply)
    ensures r.cookie.Some? <==> o.LoggedIn?
  {
    match o
    case Disabled => LoginReply(OkReply(map["success" := JBool(true), "message" := JStr("Auth not enabled")]), None)
    case Crashed => LoginReply(ErrorReply(500, "Login failed"), None)
    case Missing => LoginReply(ErrorReply(400, "Username and password are required"), None)
    case Rejected => LoginReply(ErrorReply(401, "Invalid username or password"), None)
    case LoggedIn(username) =>
      LoginReply(
        OkReply(map["success" := JBool(true), "message" := JStr("Logged in successfully")]),
        Some(SetCookie(CreateSessionToken(username, now, env), SessionCookieConfig(env))))
  }

  /** `POST(request)` at time `now`. */
  function LoginPost(body: Result<Json, Thrown>, now: nat, env: AuthEnv): (r: LoginReply)
    ensures r.cookie.Some? <==> LoginOf(body, env).LoggedIn?
    ensures !IsAuthEnabled(env) ==> r.reply.status == 200 && r.cookie.None?
    ensures LoginOf(body, env) == Crashed ==> r.reply.status == 500
    ensures LoginOf(body, env) == Missing ==> r.reply.status == 400
    ensures LoginOf(body, env) == Rejected ==> r.reply.status == 401
    ensures r.cookie.Some? ==> (r.reply.status == 200
      && r.cookie.value.config == SessionCookieConfig(env)
      && r.cookie.value.value == CreateSessionToken(CredentialsOf(env).username, now, env))
  {
    ReplyOf(LoginOf(body, env), now, env)
  }

  /**
   * The cookie a login sets lets later requests through for seven days,
   * unless the configured username holds a colon, in which case it never
   * does.
   */
  lemma LoginCookieAuthenticates(body: Result<Json, Thrown>, created: nat, now: int, env: AuthEnv)
    requires LoginPost(body, created, env).cookie.Some?
    ensures var token := LoginPost(body, created, env).cookie.value.value;
      && (':' !in CredentialsOf(env).username && now - created <= MaxAgeMillis ==>
            IsRequestAuthenticated(Some(token), now, env))
      && (now - created > MaxAgeMillis ==> !IsRequestAuthenticated(Some(token), now, env))
      && (':' in CredentialsOf(env).username ==> !IsRequestAuthenticated(Some(token), now, env))
  {
    var username := CredentialsOf(env).username;
    var token := CreateSessionToken(username, created, env);
    assert |TokenData(username, created, Secret(env))| > 0;
    if ':' in username {
      ColonInUsernameNeverVerifies(username, created, now, env);
    } else if now - created <= MaxAgeMillis {
      TokenRoundTrip(username, created, now, env);
    } else {
      ExpiredTokenRejected(username, created, now, env);
    }
  }
}
