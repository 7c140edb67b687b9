# vidSync front end: session and authentication model

A Dafny model of the client-side session logic of the vidSync Next.js front
end: the edge route guard, the `auth` and `user` store slices and the store's
hydration from cookies, the login/logout gateway, the explore page's
current-user hydration, the `ProtectedRoute` gate, and the validators and
payload builders of the signup and login forms and the `authenticate` server
action.

The cookie jar is a `map<string, string>`. Every network call is replaced by
a parameter giving its outcome (a parsed response, or an exception). Where
the source updates state in place (the store slices, the cookie jar, the
pages' `useState` hooks) the model has a class whose methods update fields,
and each method's postcondition ties the new state to a pure function
(`Reduce`, `LoginStep`, `LogoutStep`, `FetchUserStep`, `FormDataOf`). The
lemmas are stated about those functions.

Files: one module per modelled source file, plus three helper modules (`Js`,
`Cookies`, `Schema`) and one module of scenarios that compose the others
(`Session`):

- `js.dfy`: `undefined`, string truthiness, template-literal interpolation.
- `cookies.dfy`: the cookie jar; `Cookies.Get` is `Cookies.get`, the value under a name or `undefined` when there is none.
- `schema.dfy`: the zod string length bound and validation issues.
- `middleware.dfy`: `src/middleware.ts`.
- `auth_slice.dfy`, `user_slice.dfy`, `store.dfy`: `src/lib/store`.
- `auth_services.dfy`: `src/services/auth/authServices.ts`.
- `explore_page.dfy`: `src/app/explore/page.tsx`.
- `protected_route.dfy`: `src/components/ProtectedRoute.tsx`.
- `signup_page.dfy`, `login_page.dfy`: the two form pages.
- `actions.dfy`: `src/lib/actions.ts`.
- `session.dfy`: properties of the pieces acting together.

The model follows the code as written, including these quirks:

- The guard tests whether an `accessToken` cookie exists, since a cookie object is truthy even when its value is empty. Everything else tests the cookie string's truthiness.
- `loginSuccess` and `logout` never touch `isAuthenticated`. The flag is computed once, when the store is made, so it disagrees with the tokens after a login or logout without a page reload.
- The explore page's early return for a missing token comes before the `try`, so `loading` stays true.
- A rejected access token is never removed. The explore page sends the visitor to `/login`, and the guard sends `/login` back to `/explore`. An empty `accessToken` cookie bounces the same way.
- `logout` sends `Bearer undefined` when there is no access-token cookie.
- The login page posts its values under `identifier`, not under `email` or `username`.

Three consequences of the code follow. `isAuthenticated` is not re-derived
after `loginSuccess` or `logout`. A successful `login` leaves the flag false
until the next page load. A token the explore page's request rejects is never
cleared. See `Session.LoginWithoutReloadKeepsFlagFalse`,
`Session.LogoutWithoutReloadKeepsFlagTrue`, `Session.LoginScenario` and
`Session.RejectedTokenBouncesBack`.

None of the page files modelled here calls `login` or `logout` from
`src/services/auth/authServices.ts`, and none renders `ProtectedRoute`. The
login page posts to its own endpoint and stores no token. The `Session`
scenarios therefore compose the pieces as a caller would, not as a page of
this repository does. The `formSchema` of `src/lib/actions.ts` is used only
as a type (`z.infer`); `authenticate` never parses its input with it, so
`Actions.FormSchemaIssues` states what the schema would accept, not a check
the action makes.

## Model

| member | source | states |
|---|---|---|
| `Js.Bearer` | src/services/auth/authServices.ts:64 | the header is `Bearer ` followed by the token, or by `undefined` when there is none |
| `Cookies.CookieJar.Set` | src/services/auth/authServices.ts:28-35 | `Cookies.set` writes the value under the name and leaves every other cookie unchanged |
| `Cookies.CookieJar.Remove` | src/services/auth/authServices.ts:74-75 | `Cookies.remove` deletes the cookie of that name and leaves every other cookie unchanged |
| `Schema.MinLength` | src/app/signup/page.tsx:26-40 | a `z.string().min(n)` field is valid exactly when it has at least `n` characters, and otherwise reports one issue with its own path and message |
| `Middleware.IsPublicPath` | src/middleware.ts:6 | a path is public exactly when it is `/`, `/login` or `/signup` |
| `Middleware.HasToken` | src/middleware.ts:8-13 | a token is present exactly when an `accessToken` cookie exists, even one whose value is empty |
| `Middleware.Guard` | src/middleware.ts:3-16 | public path with a token redirects to `/explore`; non-public path without one redirects to `/login`; otherwise pass-through, each case an if-and-only-if |
| `Middleware.Route` | src/middleware.ts:18-20 | paths outside the matcher are never intercepted; every redirect targets another matched path |
| `Middleware.OnlyExploreProtected` | src/middleware.ts:6-20 | without a token, of all paths only `/explore` is redirected to `/login` |
| `Middleware.NoRedirectLoop` | src/middleware.ts:6-15 | with the same cookies, the redirect target always passes through |
| `Middleware.OnlyAccessTokenConsulted` | src/middleware.ts:8-15 | jars that agree on whether `accessToken` exists get the same decision; the refresh token and cookie values are never read |
| `Middleware.EmptyTokenCountsAsPresent` | src/middleware.ts:8-12 | an `accessToken` cookie with an empty value counts as signed in |
| `AuthSlice.Reduce` | src/lib/store/features/authSlice.ts:21-33 | `loginSuccess` stores the payload's two tokens; `logout` nulls both; neither changes `isAuthenticated` |
| `AuthSlice.IsAuthenticatedNeverRecomputed` | src/lib/store/features/authSlice.ts:22-32 | no sequence of dispatched auth actions changes `isAuthenticated` |
| `AuthSlice.TokensStayPaired` | src/lib/store/features/authSlice.ts:22-32 | if both tokens are present or both absent, that stays so after any sequence of actions |
| `AuthSlice.LastActionDecidesTokens` | src/lib/store/features/authSlice.ts:22-32 | after a non-empty sequence of actions, the state is what the last action alone produces from the start state: its tokens are those the last action writes, and the flag is the start state's |
| `AuthSlice.LogoutIdempotent` | src/lib/store/features/authSlice.ts:29-32 | `logout` twice equals `logout` once |
| `AuthSlice.LoginThenLogout` | src/lib/store/features/authSlice.ts:22-32 | `loginSuccess` then `logout` nulls both tokens whatever the payload, keeping the flag |
| `AuthSlice.AuthStore.constructor` | src/lib/store/store.ts:25-27 | the slice starts at the preloaded state |
| `AuthSlice.AuthStore.LoginSuccess` | src/lib/store/features/authSlice.ts:22-28 | the in-place reducer leaves the slice at `Reduce(old, loginSuccess(payload))` |
| `AuthSlice.AuthStore.Logout` | src/lib/store/features/authSlice.ts:29-32 | the in-place reducer leaves the slice at `Reduce(old, logout)` |
| `UserSlice.Reduce` | src/lib/store/features/userSlice.ts:29-52 | `setUser(p)` makes every one of the nine fields equal to `p`'s; `clearUser` sets every string field, `coverImage` included, to `""` and `watchHistory` to empty |
| `UserSlice.LastActionWins` | src/lib/store/features/userSlice.ts:30-51 | after a non-empty sequence of user actions, the slice is what the last action alone produces |
| `UserSlice.SetUserIdempotent` | src/lib/store/features/userSlice.ts:30-40 | `setUser(p)` twice equals `setUser(p)` once |
| `UserSlice.ClearAfterSetUser` | src/lib/store/features/userSlice.ts:30-51 | `clearUser` after any `setUser` gives the same cleared state whatever the payload |
| `UserSlice.ClearedDiffersFromInitial` | src/lib/store/features/userSlice.ts:15-51 | the cleared state is the initial state except that `coverImage` is `""` instead of absent |
| `UserSlice.UserStore.constructor` | src/lib/store/features/userSlice.ts:15-24 | the slice starts at `initialState` |
| `UserSlice.UserStore.SetUser` | src/lib/store/features/userSlice.ts:30-40 | the nine in-place assignments leave the slice at `Reduce(old, setUser(payload))` |
| `UserSlice.UserStore.ClearUser` | src/lib/store/features/userSlice.ts:41-51 | the nine in-place assignments leave the slice at `Reduce(old, clearUser)` |
| `Store.GetInitialAuthState` | src/lib/store/store.ts:6-16 | authenticated exactly when in a browser with both cookies truthy, and then holding exactly those cookie values; otherwise the signed-out state; the flag is true iff both tokens are non-null |
| `Store.TokensReadBack` | src/lib/store/store.ts:8-13 | non-empty tokens written to the jar are hydrated unchanged, with the flag true |
| `Store.Store.MakeStore` | src/lib/store/store.ts:18-30 | `auth` is preloaded from the jar by `getInitialAuthState`; `user` starts at its initial state |
| `AuthServices.LoginStep` | src/services/auth/authServices.ts:8-52 | true exactly for an ok response carrying `data.data`; then both cookies hold its tokens, other cookies are untouched, the store's tokens equal the cookies and the flag is unchanged; on any other outcome nothing changes |
| `AuthServices.LogoutStep` | src/services/auth/authServices.ts:54-87 | true exactly for an ok response; then both cookies are removed, other cookies untouched, the store's tokens nulled and the flag unchanged; otherwise nothing changes |
| `AuthServices.LogoutAuthorization` | src/services/auth/authServices.ts:56-66 | the bearer credential sent is the access-token cookie's value, or `undefined` when there is none |
| `AuthServices.LoginThenLogoutClears` | src/services/auth/authServices.ts:26-77 | a successful login followed by a successful logout leaves no token in the store or the jar |
| `AuthServices.Login` | src/services/auth/authServices.ts:8-52 | the cookie writes and dispatch in place match `LoginStep`, and the result is always a boolean |
| `AuthServices.Logout` | src/services/auth/authServices.ts:54-87 | the dispatch and cookie removals in place match `LogoutStep`, and the header sent is the one built from the cookie |
| `ExplorePage.ToUser` | src/app/explore/page.tsx:39-51 | the API's `_id` becomes `id` and the other eight fields are copied |
| `ExplorePage.FetchUserStep` | src/app/explore/page.tsx:17-64 | with no truthy token: a push to `/login`, no request, `loading` unchanged; otherwise one bearer request and `loading` false; success stores the user; not-ok or `success` false sets the log-in-again error and pushes `/login`; an exception sets the generic error and pushes `/login` |
| `ExplorePage.Render` | src/app/explore/page.tsx:69-76 | `loading` shows the loading text, then a truthy `error` shows the error, otherwise the dashboard |
| `ExplorePage.NoTokenStaysLoading` | src/app/explore/page.tsx:11-23 | with no token, the freshly mounted page stays on the loading screen after one push to `/login`, with no request |
| `ExplorePage.DashboardIffUserStored` | src/app/explore/page.tsx:17-76 | the dashboard shows exactly when the fetch succeeded and the user was stored |
| `ExplorePage.ExploreView.constructor` | src/app/explore/page.tsx:11-12 | the page mounts loading, with no error |
| `ExplorePage.ExploreView.FetchUser` | src/app/explore/page.tsx:17-64 | the in-place steps, early return included, match `FetchUserStep` on the cookie's token |
| `ProtectedRoute.Decide` | src/components/ProtectedRoute.tsx:7-25 | signed out: renders nothing and navigates to `/login`; signed in: renders the children unchanged and does not navigate |
| `ProtectedRoute.OnlyFlagConsulted` | src/components/ProtectedRoute.tsx:8-10 | states with the same `isAuthenticated` flag get the same decision, whatever their tokens |
| `LoginPage.FormSchemaIssues` | src/app/login/page.tsx:20-27 | valid exactly when the identifier is non-empty and the password has at least six characters, each failure reported on its field |
| `LoginPage.IdentifierLabel` | src/app/login/page.tsx:78 | the label is "Email" exactly in email mode, else "Username" |
| `LoginPage.IdentifierInputType` | src/app/login/page.tsx:80-82 | the input type is `email` exactly in email mode, else `text` |
| `LoginPage.PasswordInputType` | src/app/login/page.tsx:104-108 | the password is shown as text exactly when `showPassword` |
| `LoginPage.OnSubmit` | src/app/login/page.tsx:41-60 | the body sent has exactly the keys `identifier` and `password` with the form's values, on every outcome; the handler only logs the outcome |
| `LoginPage.LoginView.constructor` | src/app/login/page.tsx:30-31 | the page mounts in email mode with the password hidden |
| `LoginPage.LoginView.ToggleIdentifierKind` | src/app/login/page.tsx:127 | the toggle flips `isEmail` and nothing else |
| `LoginPage.LoginView.TogglePasswordVisibility` | src/app/login/page.tsx:112 | the toggle flips `showPassword` and nothing else |
| `LoginPage.ToggleTwiceRestores` | src/app/login/page.tsx:127 | two presses of the toggle restore the mode and its label |
| `Actions.FormSchemaIssues` | src/lib/actions.ts:5-12 | valid exactly when the identifier is non-empty and the password has at least six characters |
| `Actions.SameSchemaAsLoginPage` | src/lib/actions.ts:5-12 | the action's schema reports exactly what the login page's schema reports |
| `Actions.IdentifierKey` | src/lib/actions.ts:20 | the key is `email` exactly when `isEmail`, else `username` |
| `Actions.AuthenticatePayload` | src/lib/actions.ts:19-22 | the payload has exactly two keys: the identifier unchanged under the chosen key, and the password unchanged |
| `SignupPage.FormSchemaIssues` | src/app/signup/page.tsx:24-47 | valid exactly when username and full name have at least 2 characters, both passwords at least 6, the email passes the email check and the passwords match; each failure is reported on its own field with its own message, the email's included, and a mismatch on `confirmPassword` |
| `SignupPage.FileFieldsNeverReject` | src/app/signup/page.tsx:41-42 | `avatar` and `coverImage` never change the validation result |
| `SignupPage.Entries` | src/app/signup/page.tsx:69-70 | `Object.keys(values)` gives seven distinct keys, and a key names a file field exactly when it is `avatar` or `coverImage` |
| `SignupPage.Appended` | src/app/signup/page.tsx:70-77 | one run of the callback appends at most one entry, under its own key: a string field as it is; a file field only when it holds a file, and then its first file |
| `SignupPage.FormDataOf` | src/app/signup/page.tsx:69-78 | running the callback over the entries appends at most one entry per field |
| `SignupPage.GetAllFormDataOf` | src/app/signup/page.tsx:69-78 | with distinct keys, the values under a key are exactly what that key's field appended, or none if no field has that key |
| `SignupPage.SignupFormData` | src/app/signup/page.tsx:69-78 | each string field is appended exactly once, unchanged; a file field only when it holds a file, and then only its first |
| `SignupPage.BuildFormData` | src/app/signup/page.tsx:66-78 | the `forEach` loop builds `FormDataOf` the form's entries, hence the per-field facts above |
| `SignupPage.SignupToast` | src/app/signup/page.tsx:92-104 | success toast exactly on an ok response; else the server message if truthy, otherwise the default message; the generic message on an exception |
| `SignupPage.SignupView.constructor` | src/app/signup/page.tsx:50-51 | the page mounts not loading |
| `SignupPage.SignupView.Submit` | src/app/signup/page.tsx:65-81 | the FormData is built, then `loading` is true while the request is in flight |
| `SignupPage.SignupView.Settle` | src/app/signup/page.tsx:82-107 | one toast for the outcome, a navigation to `/login` only on success, and `loading` false on every path |
| `Session.LoginThenReloadRoundTrip` | src/lib/store/store.ts:8-13 | non-empty tokens a successful login writes are hydrated unchanged, and equal the store's, on the next page load |
| `Session.EmptyTokenLoginNotReadBack` | src/lib/store/store.ts:8-15 | an empty access token written by a successful login is a falsy cookie, so the next page load hydrates the signed-out state |
| `Session.LoginWithoutReloadKeepsFlagFalse` | src/lib/store/features/authSlice.ts:22-28 | after a login in a signed-out page the flag stays false: the guard sends `/login` to `/explore` while `ProtectedRoute` sends the visitor to `/login` |
| `Session.LogoutWithoutReloadKeepsFlagTrue` | src/lib/store/features/authSlice.ts:29-32 | after a logout in a signed-in page the flag stays true: `ProtectedRoute` still renders while the guard sends `/explore` to `/login` |
| `Session.RejectedTokenBouncesBack` | src/app/explore/page.tsx:53-56 | a rejected token sends the page to `/login`, and since the cookie remains the guard sends `/login` back to `/explore` |
| `Session.EmptyTokenBouncesBack` | src/app/explore/page.tsx:18-23 | an empty token cookie passes the guard on `/explore`; the page pushes `/login` with no request, and the guard bounces it back |
| `Session.LoginScenario` | src/services/auth/authServices.ts:26-43 | login with tokens T1/R1 from a fresh signed-out state sets both cookies and stores both tokens, while the flag stays false |
| `Session.RejectedLoginScenario` | src/services/auth/authServices.ts:44-47 | a non-ok login response changes nothing and resolves to false |

## Left out

- Network I/O: every `fetch` becomes an outcome parameter, so endpoint URLs, HTTP methods, request headers other than `Authorization`, and timeouts are not modelled.
- AuthServices.Login: does not return the request it sends. The body is the caller's payload, serialised unchanged, and the network is abstract.
- A login response whose `data.data` exists but lacks a token is not modelled. Tokens are always strings here; what js-cookie writes for `undefined` is library behaviour.
- Cookie attributes (`secure`, `sameSite`) and js-cookie's value encoding: the jar is a plain map.
- Next.js path handling (base path, trailing slashes, the absolute redirect URL): matcher entries and public paths are compared as exact strings.
- Redux, Immer and `configureStore`: the store is two slice objects; subscriptions and re-rendering are not modelled.
- zod: the email syntax check is a parameter. zod counts UTF-16 code units where Dafny counts characters, which differs for characters outside the Basic Multilingual Plane. The model reports the password-mismatch issue together with any field issues; zod's issue order and that choice are library behaviour.
- `signIn` in `src/lib/actions.ts` is a foreign import, so `authenticate` is modelled only up to the payload it passes. Its catch-and-rethrow is not modelled.
- The 1500 ms `setTimeout` before the signup page's navigation: only the navigation is recorded.
- `useEffect` re-runs, overlapping fetches, updates after unmount and async interleaving are not modelled.
- `console.log`/`console.error`, toast rendering, JSX markup, styling, `Loader` and `Spinner`, and the signup page's password-visibility button, which only chooses an input type as the login page's does.
- `src/app/page.tsx`, `src/app/profile/page.tsx`, `src/app/video/[id]/page.tsx`, `src/components/Dashboard.tsx`, `src/components/VideoDetail.tsx`, `src/components/ProfilePage.tsx` and `src/components/VideoCard.tsx` are not part of this model. They are views that fetch and render, with no session logic of their own.
