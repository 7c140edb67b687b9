/**
 * The `auth` slice of the store (src/lib/store/features/authSlice.ts): the
 * token pair and the `isAuthenticated` flag, with the `loginSuccess` and
 * `logout` reducers. `Reduce` is what a reducer does to the slice;
 * `AuthStore` is the slice's draft that the reducers assign in place.
 */
module AuthSlice {
  import opened Js

  datatype AuthState = AuthState(
    accessToken: Option<string>,
    refreshToken: Option<string>,
    isAuthenticated: bool)

  /** The payload of `loginSuccess`. */
  datatype TokenPair = TokenPair(accessToken: string, refreshToken: string)

  datatype AuthAction = LoginSuccess(payload: TokenPair) | Logout

  /** The slice's `initialState`. */
  const InitialState: AuthState := AuthState(None, None, false)

  /** The two tokens are both present or both absent. */
  predicate TokensPaired(s: AuthState) {
    s.accessToken.Some? == s.refreshToken.Some?
  }

  /** One reducer step: each reducer writes both tokens and never the flag. */
  function Reduce(s: AuthState, a: AuthAction): (r: AuthState)
    ensures r.isAuthenticated == s.isAuthenticated
    ensures a.LoginSuccess? ==>
              r.accessToken == Some(a.payload.accessToken) &&
              r.refreshToken == Some(a.payload.refreshToken)
    ensures a.Logout? ==> r.accessToken == None && r.refreshToken == None
  {
    match a
    case LoginSuccess(p) =>
      s.(accessToken := Some(p.accessToken), refreshToken := Some(p.refreshToken))
    case Logout =>
      s.(accessToken := None, refreshToken := None)
  }

  /** The slice after a run of dispatched actions, first action first. */
  function ReduceAll(s: AuthState, actions: seq<AuthAction>): AuthState
    decreases |actions|
  {
    if actions == [] then s else ReduceAll(Reduce(s, actions[0]), actions[1..])
  }

  /** No run of reducers ever recomputes `isAuthenticated`. */
  lemma {:induction false} IsAuthenticatedNeverRecomputed(s: AuthState, actions: seq<AuthAction>)
    ensures ReduceAll(s, actions).isAuthenticated == s.isAuthenticated
    decreases |actions|
  {
    if actions != [] {
      IsAuthenticatedNeverRecomputed(Reduce(s, actions[0]), actions[1..]);
    }
  }

  /** Reducers keep the two tokens paired. */
  lemma {:induction false} TokensStayPaired(s: AuthState, actions: seq<AuthAction>)
    requires TokensPaired(s)
    ensures TokensPaired(ReduceAll(s, actions))
    decreases |actions|
  {
    if actions != [] {
      TokensStayPaired(Reduce(s, actions[0]), actions[1..]);
    }
  }

  /** The tokens after a run are the ones the last action wrote. */
  lemma {:induction false} LastActionDecidesTokens(s: AuthState, actions: seq<AuthAction>)
    requires actions != []
    ensures ReduceAll(s, actions) == Reduce(s, actions[|actions| - 1])
    decreases |actions|
  {
    if |actions| > 1 {
      LastActionDecidesTokens(Reduce(s, actions[0]), actions[1..]);
    }
  }

  /** `logout` twice is `logout` once. */
  lemma LogoutIdempotent(s: AuthState)
    ensures Reduce(Reduce(s, Logout), Logout) == Reduce(s, Logout)
  {
  }

  /** `loginSuccess` followed by `logout` forgets the payload. */
  lemma LoginThenLogout(s: AuthState, p: TokenPair)
    ensures Reduce(Reduce(s, LoginSuccess(p)), Logout) == s.(accessToken := None, refreshToken := None)
  {
  }

  /** The slice's state, updated in place by the reducers. */
  class AuthStore {
    var accessToken: Option<string>
    var refreshToken: Option<string>
    var isAuthenticated: bool

    function State(): AuthState
      reads this
    {
      AuthState(accessToken, refreshToken, isAuthenticated)
    }

    /** The slice as the store creates it from a preloaded state. */
    constructor (preloaded: AuthState)
      ensures State() == preloaded
    {
      accessToken := preloaded.accessToken;
      refreshToken := preloaded.refreshToken;
      isAuthenticated := preloaded.isAuthenticated;
    }

    /** The `loginSuccess` reducer. */
    method LoginSuccess(payload: TokenPair)
      modifies this
      ensures State() == Reduce(old(State()), AuthAction.LoginSuccess(payload))
    {
      accessToken := Some(payload.accessToken);
      refreshToken := Some(payload.refreshToken);
    }

    /** The `logout` reducer. */
    method Logout()
      modifies this
      ensures State() == Reduce(old(State()), AuthAction.Logout)
    {
      accessToken := None;
      refreshToken := None;
    }
  }
}
