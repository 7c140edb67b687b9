/**
 * The edge route guard (src/middleware.ts): a decision over the requested
 * path and the request's cookies, run by Next.js only on the paths listed in
 * `config.matcher`.
 */
module Middleware {
  import opened Js
  import Cookies

  /** What the guard answers: let the request through, or redirect it. */
  datatype Decision = PassThrough | Redirect(target: string)

  /** `config.matcher`: the only paths the guard is run on. */
  const Matcher: set<string> := {"/", "/login", "/signup", "/explore"}

  /** The paths only a signed-out visitor should see. */
  function IsPublicPath(path: string): (b: bool)
    ensures b <==> path in {"/", "/login", "/signup"}
  {
    path == "/login" || path == "/signup" || path == "/"
  }

  /**
   * `request.cookies.get("accessToken")` is a cookie object whenever the
   * cookie exists, and an object is truthy even when the cookie's value is
   * empty, so the guard tests presence only. The refresh token is not read.
   */
  function HasToken(cookies: Cookies.Jar): (b: bool)
    ensures b <==> Cookies.Get(cookies, Cookies.AccessToken).Some?
    ensures Cookies.Get(cookies, Cookies.AccessToken) == Some("") ==> b
  {
    Cookies.AccessToken in cookies
  }

  /** The body of `middleware`: the two redirect rules, else no response. */
  function Guard(path: string, cookies: Cookies.Jar): (d: Decision)
    ensures d == Redirect("/explore") <==> IsPublicPath(path) && HasToken(cookies)
    ensures d == Redirect("/login") <==> !IsPublicPath(path) && !HasToken(cookies)
    ensures d == PassThrough <==> IsPublicPath(path) != HasToken(cookies)
  {
    var isPublicPath := IsPublicPath(path);
    var token := HasToken(cookies);
    if isPublicPath && token then
      Redirect("/explore")
    else if !isPublicPath && !token then
      Redirect("/login")
    else
      PassThrough
  }

  /** A navigation as Next.js handles it: the guard runs only on matched paths. */
  function Route(path: string, cookies: Cookies.Jar): (d: Decision)
    ensures path !in Matcher ==> d == PassThrough
    ensures d.Redirect? ==> d.target in Matcher && d.target != path
  {
    if path in Matcher then Guard(path, cookies) else PassThrough
  }

  /** Of the matched paths, only `/explore` is protected. */
  lemma OnlyExploreProtected(path: string, cookies: Cookies.Jar)
    requires !HasToken(cookies)
    ensures Route(path, cookies) == Redirect("/login") <==> path == "/explore"
  {
  }

  /** Following a redirect with the same cookies never redirects again. */
  lemma NoRedirectLoop(path: string, cookies: Cookies.Jar)
    ensures Route(path, cookies).Redirect? ==>
              Route(Route(path, cookies).target, cookies) == PassThrough
  {
  }

  /** Two cookie jars that agree on whether `accessToken` exists get the same answer. */
  lemma OnlyAccessTokenConsulted(path: string, c1: Cookies.Jar, c2: Cookies.Jar)
    requires (Cookies.AccessToken in c1) == (Cookies.AccessToken in c2)
    ensures Route(path, c1) == Route(path, c2)
  {
  }

  /** An `accessToken` cookie with an empty value still counts as signed in. */
  lemma EmptyTokenCountsAsPresent(path: string, cookies: Cookies.Jar)
    requires path in Matcher
    ensures Route(path, cookies[Cookies.AccessToken := ""]) ==
            (if IsPublicPath(path) then Redirect("/explore") else PassThrough)
  {
  }
}
