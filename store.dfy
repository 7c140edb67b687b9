/**
 * The store (src/lib/store/store.ts): the `auth` slice hydrated from the
 * cookie jar when the store is made, next to the `user` slice.
 */
module Store {
  import opened Js
  import Cookies
  import AuthSlice
  import UserSlice

  /**
   * `getInitialAuthState`. `hasWindow` stands for `typeof window !==
   * "undefined"`: outside a browser there is no cookie jar to read.
   */
  function GetInitialAuthState(cookies: Cookies.Jar, hasWindow: bool): (r: AuthSlice.AuthState)
    ensures r.isAuthenticated <==> r.accessToken.Some? && r.refreshToken.Some?
    ensures r.isAuthenticated <==>
              hasWindow &&
              Truthy(Cookies.Get(cookies, Cookies.AccessToken)) &&
              Truthy(Cookies.Get(cookies, Cookies.RefreshToken))
    ensures r.isAuthenticated ==>
              r.accessToken == Cookies.Get(cookies, Cookies.AccessToken) &&
              r.refreshToken == Cookies.Get(cookies, Cookies.RefreshToken)
    ensures !r.isAuthenticated ==> r == AuthSlice.InitialState
  {
    if hasWindow then
      var accessToken := Cookies.Get(cookies, Cookies.AccessToken);
      var refreshToken := Cookies.Get(cookies, Cookies.RefreshToken);
      if Truthy(accessToken) && Truthy(refreshToken) then
        var isAuthenticated := true;
        AuthSlice.AuthState(accessToken, refreshToken, isAuthenticated)
      else
        AuthSlice.AuthState(None, None, false)
    else
      AuthSlice.AuthState(None, None, false)
  }

  /** Non-empty tokens written to the jar are read back unchanged at the next start. */
  lemma TokensReadBack(cookies: Cookies.Jar, t: AuthSlice.TokenPair)
    requires t.accessToken != "" && t.refreshToken != ""
    ensures GetInitialAuthState(
              cookies[Cookies.AccessToken := t.accessToken][Cookies.RefreshToken := t.refreshToken], true)
            == AuthSlice.AuthState(Some(t.accessToken), Some(t.refreshToken), true)
  {
  }

  /** The store `makeStore` builds: the two slices side by side. */
  class Store {
    const auth: AuthSlice.AuthStore
    const user: UserSlice.UserStore

    /** `makeStore`: `auth` preloaded from the jar, `user` at its initial state. */
    constructor MakeStore(cookies: Cookies.Jar, hasWindow: bool)
      ensures fresh(auth) && fresh(user)
      ensures auth.State() == GetInitialAuthState(cookies, hasWindow)
      ensures user.State() == UserSlice.InitialUser
    {
      auth := new AuthSlice.AuthStore(GetInitialAuthState(cookies, hasWindow));
      user := new UserSlice.UserStore();
    }
  }
}
