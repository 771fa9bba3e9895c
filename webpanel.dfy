/**
  The admin web panel: the in-memory `sessions` map, the credential gate of
  the login form, logout, and the order in which `/dashboard` (and `/health`)
  decide between the login redirect, the 503 maintenance page and the status
  page.

  Cookies, form data and responses are reduced to the values the handlers
  inspect and the decisions they return; the page bodies are not modelled.
 */
module WebPanel {
  import opened Wrappers

  /** A session id: the hex token the server generates and stores in the `session_id` cookie. */
  type Token = string

  /** The value stored under a session id: creation time (integer UTC seconds) and the authenticated flag. */
  datatype Session = Session(createdAt: int, authenticated: bool)

  type Sessions = map<Token, Session>

  /** ADMIN_USERNAME and ADMIN_PASSWORD from the environment. */
  datatype Credentials = Credentials(username: string, password: string)

  /** Startup refuses to run unless both configured credentials are non-empty. */
  predicate Configured(c: Credentials) {
    |c.username| > 0 && |c.password| > 0
  }

  /** What a handler does to the `session_id` cookie. */
  datatype CookieAction = KeepCookie | SetSessionCookie(token: Token, maxAge: int) | DeleteSessionCookie

  datatype PageKind = StatusPage | UpdatePage

  /** The outcome of a request: a 302 redirect, or an HTML page with its status code. */
  datatype Response = Redirect(location: string, cookie: CookieAction) | Page(kind: PageKind, status: int)

  /** Cookie lifetime advised by `login_submit`: 24 hours. */
  const SessionMaxAge: int := 86400

  /** `data.get(key, '')` on the submitted form. */
  function FormField(form: map<string, string>, key: string): string {
    if key in form then form[key] else ""
  }

  /** `check_auth`: the request's `session_id` cookie, if any, is a key of `sessions`. */
  function CheckAuth(sessions: Sessions, cookie: Option<Token>): (ok: bool)
    ensures ok ==> cookie.Some?
  {
    match cookie
    case None => false
    case Some(id) => id in sessions
  }

  /** The credential comparison of `login_submit`. */
  function CredentialsMatch(admin: Credentials, form: map<string, string>): bool {
    FormField(form, "username") == admin.username && FormField(form, "password") == admin.password
  }

  /** `create_session` with the random token supplied by the caller: stores an authenticated session under it. */
  function Created(sessions: Sessions, token: Token, now: int): Sessions {
    sessions[token := Session(now, true)]
  }

  /** `logout`: deletes the cookie's session if it is stored. */
  function LoggedOut(sessions: Sessions, cookie: Option<Token>): Sessions {
    if cookie.Some? && cookie.value in sessions then sessions - {cookie.value} else sessions
  }

  /** `login_submit`: on matching credentials a session is created under `token` and the browser goes to the dashboard. */
  function LoginSubmit(sessions: Sessions, admin: Credentials, form: map<string, string>, token: Token, now: int): (Sessions, Response) {
    if CredentialsMatch(admin, form) then
      (Created(sessions, token, now), Redirect("/dashboard", SetSessionCookie(token, SessionMaxAge)))
    else
      (sessions, Redirect("/login?error=invalid", KeepCookie))
  }

  /** `update_page`: repeats the authentication check, then serves the maintenance page with status 503. */
  function UpdatePageResponse(sessions: Sessions, cookie: Option<Token>): Response {
    if !CheckAuth(sessions, cookie) then Redirect("/login", KeepCookie) else Page(UpdatePage, 503)
  }

  /** `health_check`, the handler of `/dashboard` and `/health`. */
  function HealthCheck(sessions: Sessions, updateMode: bool, cookie: Option<Token>): Response {
    if !CheckAuth(sessions, cookie) then Redirect("/login", KeepCookie)
    else if updateMode then UpdatePageResponse(sessions, cookie)
    else Page(StatusPage, 200)
  }

  // ---------------------------------------------------------------- properties

  /** After a session is created under `token`, that token authenticates, its session is marked authenticated, and every other token is as before. */
  lemma CreateThenAuthenticated(sessions: Sessions, token: Token, now: int)
    ensures CheckAuth(Created(sessions, token, now), Some(token))
    ensures Created(sessions, token, now)[token].authenticated
    ensures forall id :: id != token ==>
      (id in Created(sessions, token, now) <==> id in sessions) &&
      (id in sessions ==> Created(sessions, token, now)[id] == sessions[id])
  {
  }

  /** After logout the cookie's id no longer authenticates; every other session survives unchanged; without a stored id nothing changes. */
  lemma LogoutRevokes(sessions: Sessions, cookie: Option<Token>)
    ensures !CheckAuth(LoggedOut(sessions, cookie), cookie)
    ensures !CheckAuth(sessions, cookie) ==> LoggedOut(sessions, cookie) == sessions
    ensures forall id :: (cookie.None? || id != cookie.value) ==>
      (id in LoggedOut(sessions, cookie) <==> id in sessions) &&
      (id in sessions ==> LoggedOut(sessions, cookie)[id] == sessions[id])
  {
  }

  /** A login creates a session exactly when both submitted fields equal the configured credentials; otherwise the map is unchanged and the browser is sent back with `error=invalid`. */
  lemma LoginGate(sessions: Sessions, admin: Credentials, form: map<string, string>, token: Token, now: int)
    ensures var (after, resp) := LoginSubmit(sessions, admin, form, token, now);
      if FormField(form, "username") == admin.username && FormField(form, "password") == admin.password then
        after == Created(sessions, token, now) && CheckAuth(after, Some(token)) &&
        resp == Redirect("/dashboard", SetSessionCookie(token, 86400))
      else
        after == sessions && resp == Redirect("/login?error=invalid", KeepCookie)
  {
  }

  /** With the credentials startup insists on, a form missing either field is always refused. */
  lemma MissingFieldRefused(admin: Credentials, form: map<string, string>)
    requires Configured(admin)
    requires "username" !in form || "password" !in form
    ensures !CredentialsMatch(admin, form)
  {
  }

  /**
    The dashboard's decision order: a caller without a stored session is sent
    to the login page whatever the maintenance flag says; an authenticated
    caller gets the 503 maintenance page exactly when the flag is set, and the
    status page otherwise.
   */
  lemma DashboardOrder(sessions: Sessions, updateMode: bool, cookie: Option<Token>)
    ensures !CheckAuth(sessions, cookie) ==> HealthCheck(sessions, updateMode, cookie) == Redirect("/login", KeepCookie)
    ensures CheckAuth(sessions, cookie) ==>
      (HealthCheck(sessions, updateMode, cookie) == Page(UpdatePage, 503) <==> updateMode)
    ensures CheckAuth(sessions, cookie) && !updateMode ==> HealthCheck(sessions, updateMode, cookie) == Page(StatusPage, 200)
  {
  }

  /** Logging in and presenting the new cookie reaches the dashboard; logging out again is sent to the login page. */
  lemma LoginLogoutRoundTrip(sessions: Sessions, admin: Credentials, form: map<string, string>, token: Token, now: int, updateMode: bool)
    requires CredentialsMatch(admin, form)
    ensures var after := LoginSubmit(sessions, admin, form, token, now).0;
      HealthCheck(after, updateMode, Some(token)).Page? &&
      HealthCheck(LoggedOut(after, Some(token)), updateMode, Some(token)) == Redirect("/login", KeepCookie)
  {
  }

  // ---------------------------------------------------------------- the global map

  /** The module-level `sessions` dict and the handlers that touch it. */
  class SessionStore {
    var sessions: Sessions

    constructor ()
      ensures sessions == map[]
    {
      sessions := map[];
    }

    /** `create_session`; `token` stands for the fresh random `secrets.token_hex(32)`. */
    method CreateSession(token: Token, now: int) returns (id: Token)
      modifies this
      ensures id == token
      ensures sessions == Created(old(sessions), token, now)
    {
      sessions := sessions[token := Session(now, true)];
      id := token;
    }

    /** `login_submit` */
    method Login(admin: Credentials, form: map<string, string>, token: Token, now: int) returns (resp: Response)
      modifies this
      ensures (sessions, resp) == LoginSubmit(old(sessions), admin, form, token, now)
    {
      var username := FormField(form, "username");
      var password := FormField(form, "password");
      if username == admin.username && password == admin.password {
        var id := CreateSession(token, now);
        resp := Redirect("/dashboard", SetSessionCookie(id, SessionMaxAge));
      } else {
        resp := Redirect("/login?error=invalid", KeepCookie);
      }
    }

    /** `logout` */
    method Logout(cookie: Option<Token>) returns (resp: Response)
      modifies this
      ensures sessions == LoggedOut(old(sessions), cookie)
      ensures resp == Redirect("/login", DeleteSessionCookie)
    {
      if cookie.Some? && cookie.value in sessions {
        sessions := sessions - {cookie.value};
      }
      resp := Redirect("/login", DeleteSessionCookie);
    }

    /** `health_check`, reading the store and the maintenance flag. */
    method Dashboard(updateMode: bool, cookie: Option<Token>) returns (resp: Response)
      ensures resp == HealthCheck(sessions, updateMode, cookie)
    {
      if !CheckAuth(sessions, cookie) {
        return Redirect("/login", KeepCookie);
      }
      if updateMode {
        return UpdatePageResponse(sessions, cookie);
      }
      resp := Page(StatusPage, 200);
    }
  }
}
