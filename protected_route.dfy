/**
 * The client-side gate (src/components/ProtectedRoute.tsx): it renders its
 * children or nothing, and navigates to `/login`, from the stored
 * `isAuthenticated` flag alone.
 */
module ProtectedRoute {
  import opened Js
  import AuthSlice

  datatype Rendered<C> = Nothing | Children(children: C)

  /** What the component renders and where its effect navigates, if anywhere. */
  datatype Gate<C> = Gate(rendered: Rendered<C>, navigation: Option<string>)

  function Decide<C>(auth: AuthSlice.AuthState, children: C): (g: Gate<C>)
    ensures g.rendered.Nothing? <==> !auth.isAuthenticated
    ensures g.navigation == Some("/login") <==> !auth.isAuthenticated
    ensures g.navigation.None? <==> auth.isAuthenticated
    ensures auth.isAuthenticated ==> g.rendered == Children(children)
  {
    var isAuthenticated := auth.isAuthenticated;
    var navigation := if !isAuthenticated then Some("/login") else None;
    if !isAuthenticated then Gate(Nothing, navigation) else Gate(Children(children), navigation)
  }

  /** The tokens play no part: two states with the same flag are treated alike. */
  lemma OnlyFlagConsulted<C>(a1: AuthSlice.AuthState, a2: AuthSlice.AuthState, children: C)
    requires a1.isAuthenticated == a2.isAuthenticated
    ensures Decide(a1, children) == Decide(a2, children)
  {
  }
}
