/**
 * The auth gateway (src/services/auth/authServices.ts): `login` and `logout`
 * against the remote API. The network is not modelled: each call is given
 * the outcome of its request. `LoginStep` and `LogoutStep` say what a call
 * does to the session; `Login` and `Logout` do it in place on the cookie jar
 * and the store.
 */
module AuthServices {
  import opened Js
  import Cookies
  import AuthSlice
  import Store

  /** The JSON body of a login response, reduced to its `data.data` token pair (absent when missing). */
  datatype LoginBody = LoginBody(tokens: Option<AuthSlice.TokenPair>)

  /**
   * The outcome of the login request: a response whose body parsed, or an
   * exception from `fetch` or from `response.json()`.
   */
  datatype LoginResponse = LoginResponded(ok: bool, body: LoginBody) | LoginThrew

  /** The outcome of the logout request; `LogoutThrew` also covers a non-ok body that does not parse. */
  datatype LogoutResponse = LogoutResponded(ok: bool) | LogoutThrew

  /** What the gateway touches: the cookie jar and the `auth` slice. */
  datatype Session = Session(cookies: Cookies.Jar, auth: AuthSlice.AuthState)

  /** The session after a call, and the boolean the call resolves to. */
  datatype Outcome = Outcome(session: Session, result: bool)

  /** Both cookies agree with the slice's tokens. */
  predicate CookiesMatchStore(s: Session) {
    s.auth.accessToken == Cookies.Get(s.cookies, Cookies.AccessToken) &&
    s.auth.refreshToken == Cookies.Get(s.cookies, Cookies.RefreshToken)
  }

  /** The two jars agree on every cookie other than the two tokens. */
  ghost predicate OtherCookiesUnchanged(c1: Cookies.Jar, c2: Cookies.Jar) {
    forall name :: name != Cookies.AccessToken && name != Cookies.RefreshToken ==>
      Cookies.Get(c1, name) == Cookies.Get(c2, name)
  }

  /**
   * `login`: on an ok response, both cookies and the slice take the body's
   * tokens; reading `data.data.accessToken` from a body without `data.data`
   * throws, which the `catch` turns into `false` before anything is written.
   */
  function LoginStep(s: Session, response: LoginResponse): (r: Outcome)
    ensures r.result <==> response.LoginResponded? && response.ok && response.body.tokens.Some?
    ensures r.result ==>
              var t := response.body.tokens.value;
              Cookies.Get(r.session.cookies, Cookies.AccessToken) == Some(t.accessToken) &&
              Cookies.Get(r.session.cookies, Cookies.RefreshToken) == Some(t.refreshToken) &&
              OtherCookiesUnchanged(s.cookies, r.session.cookies) &&
              CookiesMatchStore(r.session) &&
              r.session.auth.isAuthenticated == s.auth.isAuthenticated
    ensures !r.result ==> r.session == s
  {
    match response
    case LoginThrew => Outcome(s, false)
    case LoginResponded(ok, body) =>
      if !ok then
        Outcome(s, false)
      else if body.tokens.None? then
        Outcome(s, false)
      else
        var t := body.tokens.value;
        var cookies := s.cookies[Cookies.AccessToken := t.accessToken][Cookies.RefreshToken := t.refreshToken];
        Outcome(Session(cookies, AuthSlice.Reduce(s.auth, AuthSlice.LoginSuccess(t))), true)
  }

  /**
   * `logout`: on an ok response the slice's tokens are cleared and both
   * cookies removed; otherwise nothing changes.
   */
  function LogoutStep(s: Session, response: LogoutResponse): (r: Outcome)
    ensures r.result <==> response == LogoutResponded(true)
    ensures r.result ==>
              Cookies.AccessToken !in r.session.cookies &&
              Cookies.RefreshToken !in r.session.cookies &&
              OtherCookiesUnchanged(s.cookies, r.session.cookies) &&
              r.session.auth == s.auth.(accessToken := None, refreshToken := None)
    ensures !r.result ==> r.session == s
  {
    match response
    case LogoutThrew => Outcome(s, false)
    case LogoutResponded(ok) =>
      if ok then
        var auth := AuthSlice.Reduce(s.auth, AuthSlice.Logout);
        Outcome(Session(s.cookies - {Cookies.AccessToken} - {Cookies.RefreshToken}, auth), true)
      else
        Outcome(s, false)
  }

  /** The `Authorization` header `logout` sends: the access-token cookie as read before the request. */
  function LogoutAuthorization(cookies: Cookies.Jar): (h: string)
    ensures Cookies.AccessToken in cookies ==> h == "Bearer " + cookies[Cookies.AccessToken]
    ensures Cookies.AccessToken !in cookies ==> h == "Bearer undefined"
  {
    Bearer(Cookies.Get(cookies, Cookies.AccessToken))
  }

  /** A successful login followed by a successful logout leaves no token anywhere. */
  lemma LoginThenLogoutClears(s: Session, t: AuthSlice.TokenPair)
    ensures var afterLogin := LoginStep(s, LoginResponded(true, LoginBody(Some(t))));
            var afterLogout := LogoutStep(afterLogin.session, LogoutResponded(true));
            afterLogin.result && afterLogout.result &&
            afterLogout.session.auth.accessToken == None &&
            afterLogout.session.auth.refreshToken == None &&
            Cookies.AccessToken !in afterLogout.session.cookies &&
            Cookies.RefreshToken !in afterLogout.session.cookies
  {
  }

  /**
   * `login`: sends the request, then applies `LoginStep`'s effect in place —
   * the two `Cookies.set` calls, then `dispatch(loginSuccess(...))`. Every
   * outcome ends in a boolean; none escapes as an exception.
   */
  method Login(jar: Cookies.CookieJar, store: Store.Store, response: LoginResponse) returns (ok: bool)
    modifies jar, store.auth
    ensures Outcome(Session(jar.entries, store.auth.State()), ok) ==
            LoginStep(old(Session(jar.entries, store.auth.State())), response)
  {
    match response
    case LoginThrew =>
      ok := false;
    case LoginResponded(responseOk, body) =>
      if responseOk {
        if body.tokens.None? {
          ok := false;
        } else {
          var t := body.tokens.value;
          jar.Set(Cookies.AccessToken, t.accessToken);
          jar.Set(Cookies.RefreshToken, t.refreshToken);
          store.auth.LoginSuccess(t);
          ok := true;
        }
      } else {
        ok := false;
      }
  }

  /**
   * `logout`: reads the access-token cookie for the header, sends the
   * request, and on an ok response dispatches `logout` and removes both
   * cookies. Returns the header it sent alongside the result.
   */
  method Logout(jar: Cookies.CookieJar, store: Store.Store, response: LogoutResponse)
    returns (ok: bool, authorization: string)
    modifies jar, store.auth
    ensures authorization == LogoutAuthorization(old(jar.entries))
    ensures Outcome(Session(jar.entries, store.auth.State()), ok) ==
            LogoutStep(old(Session(jar.entries, store.auth.State())), response)
  {
    var accessToken := Cookies.Get(jar.entries, Cookies.AccessToken);
    authorization := Bearer(accessToken);
    match response
    case LogoutThrew =>
      ok := false;
    case LogoutResponded(responseOk) =>
      if responseOk {
        store.auth.Logout();
        jar.Remove(Cookies.AccessToken);
        jar.Remove(Cookies.RefreshToken);
        ok := true;
      } else {
        ok := false;
      }
  }
}
