/**
 * The explore page's session hydration (src/app/explore/page.tsx): the
 * `fetchUser` effect, which reads the access-token cookie, fetches the
 * current user and fills the `user` slice, and the page's render choice.
 * The request's outcome is a parameter.
 */
module ExplorePage {
  import opened Js
  import Cookies
  import UserSlice
  import Store

  /** The user record as the API sends it: `_id` where the store has `id`. */
  datatype ApiUser = ApiUser(
    dbId: string,
    username: string,
    email: string,
    fullName: string,
    avatar: string,
    coverImage: Option<string>,
    watchHistory: seq<string>,
    createdAt: string,
    updatedAt: string)

  /** The parsed JSON body: its `success` flag and its `data` (absent when missing). */
  datatype CurrentUserResult = CurrentUserResult(success: bool, data: Option<ApiUser>)

  /** The outcome of the current-user request: a parsed body, or an exception from `fetch` or `response.json()`. */
  datatype CurrentUserResponse = Responded(ok: bool, result: CurrentUserResult) | Threw

  /** The page's local state: `loading`, `error`, and the `router.push` calls made so far. */
  datatype View = View(loading: bool, error: Option<string>, navigations: seq<string>)

  const InitialView: View := View(true, None, [])

  const ReloginMessage: string := "Failed to fetch user data. Please log in again."
  const GenericMessage: string := "An error occurred. Please try again later."

  /** The page's state and the `user` slice after `fetchUser`, and the `Authorization` header sent, if any. */
  datatype Step = Step(view: View, user: UserSlice.User, request: Option<string>)

  /** The object `fetchUser` hands to `setUser`. */
  function ToUser(u: ApiUser): (r: UserSlice.User)
    ensures r.id == u.dbId
    ensures r.username == u.username && r.email == u.email && r.fullName == u.fullName
    ensures r.avatar == u.avatar && r.coverImage == u.coverImage
    ensures r.watchHistory == u.watchHistory
    ensures r.createdAt == u.createdAt && r.updatedAt == u.updatedAt
  {
    UserSlice.User(u.dbId, u.username, u.email, u.fullName, u.avatar, u.coverImage,
                   u.watchHistory, u.createdAt, u.updatedAt)
  }

  /**
   * `fetchUser`. Without a truthy token it only navigates to `/login`: the
   * early return is outside the `try`, so `finally` does not run and
   * `loading` keeps its value. Otherwise one request is sent and `loading`
   * ends false on every path.
   */
  function FetchUserStep(v: View, u: UserSlice.User, token: Option<string>, response: CurrentUserResponse): (r: Step)
    ensures !Truthy(token) ==>
              r.request.None? && r.user == u &&
              r.view.loading == v.loading && r.view.error == v.error &&
              r.view.navigations == v.navigations + ["/login"]
    ensures Truthy(token) ==> r.request == Some(Bearer(token)) && !r.view.loading
    ensures Truthy(token) && response.Responded? && response.ok && response.result.success &&
            response.result.data.Some? ==>
              r.user == UserSlice.Reduce(u, UserSlice.SetUser(ToUser(response.result.data.value))) &&
              r.view.error == v.error && r.view.navigations == v.navigations
    ensures Truthy(token) && response.Responded? && !(response.ok && response.result.success) ==>
              r.user == u && r.view.error == Some(ReloginMessage) &&
              r.view.navigations == v.navigations + ["/login"]
    ensures Truthy(token) &&
            (response.Threw? || (response.ok && response.result.success && response.result.data.None?)) ==>
              r.user == u && r.view.error == Some(GenericMessage) &&
              r.view.navigations == v.navigations + ["/login"]
  {
    if !Truthy(token) then
      Step(v.(navigations := v.navigations + ["/login"]), u, None)
    else
      var request := Some(Bearer(token));
      match response
      case Threw =>
        Step(View(false, Some(GenericMessage), v.navigations + ["/login"]), u, request)
      case Responded(ok, result) =>
        if ok && result.success then
          match result.data
          case None =>
            // reading `userData._id` of undefined throws inside the `try`
            Step(View(false, Some(GenericMessage), v.navigations + ["/login"]), u, request)
          case Some(data) =>
            Step(v.(loading := false), UserSlice.Reduce(u, UserSlice.SetUser(ToUser(data))), request)
        else
          Step(View(false, Some(ReloginMessage), v.navigations + ["/login"]), u, request)
  }

  /** What the page renders. */
  datatype Screen = LoadingScreen | ErrorScreen(message: string) | Dashboard

  /** `loading` wins over `error`, which wins over the dashboard. */
  function Render(v: View): (s: Screen)
    ensures v.loading ==> s == LoadingScreen
    ensures !v.loading && Truthy(v.error) ==> s == ErrorScreen(v.error.value)
    ensures s == Dashboard <==> !v.loading && !Truthy(v.error)
  {
    if v.loading then LoadingScreen
    else if Truthy(v.error) then ErrorScreen(v.error.value)
    else Dashboard
  }

  /** With no token the freshly mounted page shows "Loading..." for good, whatever the server would say. */
  lemma NoTokenStaysLoading(u: UserSlice.User, token: Option<string>, response: CurrentUserResponse)
    requires !Truthy(token)
    ensures var r := FetchUserStep(InitialView, u, token, response);
            Render(r.view) == LoadingScreen && r.view.navigations == ["/login"] && r.request.None?
  {
  }

  /** On the freshly mounted page, the dashboard shows exactly when the user was fetched and stored. */
  lemma DashboardIffUserStored(u: UserSlice.User, token: Option<string>, response: CurrentUserResponse)
    ensures var r := FetchUserStep(InitialView, u, token, response);
            Render(r.view) == Dashboard <==>
              Truthy(token) && response.Responded? && response.ok &&
              response.result.success && response.result.data.Some?
  {
  }

  /** The page's `useState` hooks, updated in place by `fetchUser`. */
  class ExploreView {
    var loading: bool
    var error: Option<string>
    var navigations: seq<string>

    function Current(): View
      reads this
    {
      View(loading, error, navigations)
    }

    /** The page on mount: loading, no error, no navigation yet. */
    constructor ()
      ensures Current() == InitialView
    {
      loading, error, navigations := true, None, [];
    }

    /**
     * `fetchUser`: steps through `setLoading`, `setError`, `router.push` and
     * `dispatch(setUser(...))` as the source does. Returns the
     * `Authorization` header of the request it sent, if it sent one.
     */
    method FetchUser(jar: Cookies.CookieJar, store: Store.Store, response: CurrentUserResponse)
      returns (request: Option<string>)
      modifies this, store.user
      ensures Step(Current(), store.user.State(), request) ==
              FetchUserStep(old(Current()), old(store.user.State()),
                            Cookies.Get(jar.entries, Cookies.AccessToken), response)
    {
      var token := Cookies.Get(jar.entries, Cookies.AccessToken);
      if !Truthy(token) {
        navigations := navigations + ["/login"];
        return None;
      }
      request := Some(Bearer(token));
      match response {
        case Threw =>
          error := Some(GenericMessage);
          navigations := navigations + ["/login"];
        case Responded(ok, result) =>
          if ok && result.success {
            if result.data.None? {
              error := Some(GenericMessage);
              navigations := navigations + ["/login"];
            } else {
              store.user.SetUser(ToUser(result.data.value));
            }
          } else {
            error := Some(ReloginMessage);
            navigations := navigations + ["/login"];
          }
      }
      loading := false;
    }
  }
}
