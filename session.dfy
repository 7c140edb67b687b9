/**
 * How the pieces act together over one browser session: the cookie jar
 * shared by the gateway, the store's hydration, the route guard and the
 * explore page.
 */
module Session {
  import opened Js
  import Cookies
  import AuthSlice
  import Store
  import AuthServices
  import Middleware
  import ExplorePage
  import ProtectedRoute
  import UserSlice

  /** Non-empty tokens a successful login writes are exactly the tokens the next page load hydrates. */
  lemma LoginThenReloadRoundTrip(s: AuthServices.Session, t: AuthSlice.TokenPair)
    requires t.accessToken != "" && t.refreshToken != ""
    ensures var r := AuthServices.LoginStep(s, AuthServices.LoginResponded(true, AuthServices.LoginBody(Some(t))));
            var hydrated := Store.GetInitialAuthState(r.session.cookies, true);
            hydrated == AuthSlice.AuthState(Some(t.accessToken), Some(t.refreshToken), true) &&
            hydrated.accessToken == r.session.auth.accessToken &&
            hydrated.refreshToken == r.session.auth.refreshToken
  {
  }

  /**
   * An empty access token that a successful login writes is not read back:
   * the cookie is falsy, so the next page load hydrates signed out.
   */
  lemma EmptyTokenLoginNotReadBack(s: AuthServices.Session, t: AuthSlice.TokenPair)
    requires t.accessToken == ""
    ensures var r := AuthServices.LoginStep(s, AuthServices.LoginResponded(true, AuthServices.LoginBody(Some(t))));
            r.result &&
            Cookies.Get(r.session.cookies, Cookies.AccessToken) == Some("") &&
            Store.GetInitialAuthState(r.session.cookies, true) == AuthSlice.InitialState
  {
  }

  /**
   * A login on a page whose store was hydrated signed out leaves the flag
   * false until the next page load: the guard now sends `/login` to
   * `/explore`, while `ProtectedRoute` still sends its visitor to `/login`.
   */
  lemma LoginWithoutReloadKeepsFlagFalse<C>(cookies: Cookies.Jar, t: AuthSlice.TokenPair, children: C)
    requires !Store.GetInitialAuthState(cookies, true).isAuthenticated
    ensures var s := AuthServices.Session(cookies, Store.GetInitialAuthState(cookies, true));
            var r := AuthServices.LoginStep(s, AuthServices.LoginResponded(true, AuthServices.LoginBody(Some(t))));
            r.result &&
            r.session.auth == AuthSlice.AuthState(Some(t.accessToken), Some(t.refreshToken), false) &&
            Middleware.Route("/login", r.session.cookies) == Middleware.Redirect("/explore") &&
            ProtectedRoute.Decide(r.session.auth, children).navigation == Some("/login")
  {
  }

  /**
   * A logout on a page whose store was hydrated signed in clears the tokens
   * but leaves the flag true: the guard now sends `/explore` to `/login`,
   * while `ProtectedRoute` still renders its children.
   */
  lemma LogoutWithoutReloadKeepsFlagTrue<C>(cookies: Cookies.Jar, children: C)
    requires Store.GetInitialAuthState(cookies, true).isAuthenticated
    ensures var s := AuthServices.Session(cookies, Store.GetInitialAuthState(cookies, true));
            var r := AuthServices.LogoutStep(s, AuthServices.LogoutResponded(true));
            r.result &&
            r.session.auth.accessToken.None? && r.session.auth.refreshToken.None? &&
            r.session.auth.isAuthenticated &&
            Middleware.Route("/explore", r.session.cookies) == Middleware.Redirect("/login") &&
            Middleware.Route("/login", r.session.cookies) == Middleware.PassThrough &&
            ProtectedRoute.Decide(r.session.auth, children).rendered == ProtectedRoute.Children(children)
  {
  }

  /**
   * A rejected access token (expired or revoked) is never removed: the
   * explore page sends the visitor to `/login`, and the guard, still seeing
   * the cookie, sends `/login` straight back to `/explore`.
   */
  lemma RejectedTokenBouncesBack(cookies: Cookies.Jar, u: UserSlice.User, result: ExplorePage.CurrentUserResult)
    requires Truthy(Cookies.Get(cookies, Cookies.AccessToken))
    ensures var r := ExplorePage.FetchUserStep(ExplorePage.InitialView, u,
                       Cookies.Get(cookies, Cookies.AccessToken), ExplorePage.Responded(false, result));
            r.view.navigations == ["/login"] &&
            Middleware.Route("/explore", cookies) == Middleware.PassThrough &&
            Middleware.Route("/login", cookies) == Middleware.Redirect("/explore")
  {
  }

  /**
   * An empty `accessToken` cookie passes the guard (which tests presence) but
   * not the explore page (which tests truthiness): the page sends the
   * visitor to `/login` and the guard sends `/login` back to `/explore`.
   */
  lemma EmptyTokenBouncesBack(cookies: Cookies.Jar, u: UserSlice.User, response: ExplorePage.CurrentUserResponse)
    requires Cookies.Get(cookies, Cookies.AccessToken) == Some("")
    ensures var r := ExplorePage.FetchUserStep(ExplorePage.InitialView, u,
                       Cookies.Get(cookies, Cookies.AccessToken), response);
            r.view.navigations == ["/login"] && r.request.None? && r.view.loading &&
            Middleware.Route("/explore", cookies) == Middleware.PassThrough &&
            Middleware.Route("/login", cookies) == Middleware.Redirect("/explore")
  {
  }

  /** A successful login with a fresh jar and a signed-out store: both cookies set, tokens stored, flag still false. */
  lemma LoginScenario()
    ensures var s := AuthServices.Session(map[], AuthSlice.InitialState);
            var r := AuthServices.LoginStep(s,
                       AuthServices.LoginResponded(true, AuthServices.LoginBody(Some(AuthSlice.TokenPair("T1", "R1")))));
            r.result &&
            r.session.cookies == map[Cookies.AccessToken := "T1", Cookies.RefreshToken := "R1"] &&
            r.session.auth == AuthSlice.AuthState(Some("T1"), Some("R1"), false)
  {
  }

  /** A login the server rejects changes nothing and resolves to false. */
  lemma RejectedLoginScenario(s: AuthServices.Session, body: AuthServices.LoginBody)
    ensures AuthServices.LoginStep(s, AuthServices.LoginResponded(false, body)) == AuthServices.Outcome(s, false)
  {
  }
}
