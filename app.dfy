/** The route table of the client (src/App.tsx): which view each path
    shows for a given auth-store state. Views are named by their path. */
module App {
  import opened Wrappers
  import opened Text
  import opened AuthStore

  datatype View = Spinner | ErrorScreen(message: string) | Redirect(to: string) | Page(path: string) | NotFound

  /** The paths wrapped in `ProtectedRoute`. */
  const Protected: seq<string> := ["/dashboard", "/calendar", "/upload", "/media-library", "/campaigns"]

  /** `ProtectedRoute` around the page at `path`: loading first, then the
      error, then the missing user; only a settled, error-free, signed-in
      state shows the page. */
  function ProtectedRoute(s: AuthState, path: string): (v: View)
    ensures v == Page(path) <==> !s.loading && !TruthyOpt(s.error) && s.user.Some?
    ensures v.Redirect? <==> !s.loading && !TruthyOpt(s.error) && s.user.None?
    ensures v.Redirect? ==> v.to == "/login"
    ensures v == Spinner <==> s.loading
    ensures v.ErrorScreen? ==> Some(v.message) == s.error
  {
    if s.loading then Spinner
    else if TruthyOpt(s.error) then ErrorScreen(s.error.value)
    else if s.user.None? then Redirect("/login")
    else Page(path)
  }

  /** `AuthLayout` around the sign-in and registration forms: a spinner
      while the store loads, a redirect to `/` once a user is signed in,
      else the form. The route's own redirect to /dashboard is never
      reached, since the layout answers first whenever there is a user. */
  function AuthLayout(s: AuthState, path: string): (v: View)
    ensures v == Spinner <==> s.loading
    ensures v == Redirect("/") <==> !s.loading && s.user.Some?
    ensures v == Page(path) <==> !s.loading && s.user.None?
  {
    if s.loading then Spinner
    else if s.user.Some? then Redirect("/")
    else Page(path)
  }

  /** The `<Routes>` table. */
  function Route(path: string, s: AuthState): (v: View)
    ensures path in Protected ==> v == ProtectedRoute(s, path)
    ensures path == "/settings" ==> v == Page(path)
    ensures (path == "/login" || path == "/register") ==> v == AuthLayout(s, path)
    ensures path == "/" ==> v == Redirect(if s.user.Some? then "/dashboard" else "/login")
    ensures path !in Protected && path !in {"/settings", "/login", "/register", "/"} ==> v == NotFound
  {
    if path == "/login" || path == "/register" then
      AuthLayout(s, path)
    else if path in Protected then ProtectedRoute(s, path)
    else if path == "/settings" then Page(path)
    else if path == "/" then Redirect(if s.user.Some? then "/dashboard" else "/login")
    else NotFound
  }

  /** The whole app: the initial-check spinner, else the route. */
  function Screen(s: AuthState, path: string): (v: View)
    ensures s.loading && s.user.None? && !TruthyOpt(s.error) ==> v == Spinner
    ensures !(s.loading && s.user.None? && !TruthyOpt(s.error)) ==> v == Route(path, s)
  {
    if s.loading && s.user.None? && !TruthyOpt(s.error) then Spinner else Route(path, s)
  }

  /** Redirects settle within two steps, and the only two-step chain is a
      signed-in user on a sign-in or registration form, sent to `/` by the
      layout and from there to the dashboard. */
  lemma RedirectsSettle(path: string, s: AuthState)
    ensures var v := Route(path, s);
            v.Redirect? && Route(v.to, s).Redirect? ==>
              && (path == "/login" || path == "/register")
              && v.to == "/" && Route(v.to, s) == Redirect("/dashboard")
              && !Route(Route(v.to, s).to, s).Redirect?
    ensures var v := Route(path, s);
            v.Redirect? && path != "/login" && path != "/register" ==> !Route(v.to, s).Redirect?
  {
    var v := Route(path, s);
    assert "/dashboard" in Protected;
    assert "/login" !in Protected && "/" !in Protected;
    if v.Redirect? {
      if path == "/login" || path == "/register" {
        assert v.to == "/" && s.user.Some?;
      } else {
        assert path == "/" || path in Protected;
      }
    }
  }

  /** Only a signed-in user reaches a protected page, and a signed-in user
      never sees the sign-in or registration forms: the layout shows its
      spinner while loading, else sends the user to `/`. */
  lemma PagesFollowTheUser(path: string, s: AuthState)
    ensures path in Protected && Screen(s, path) == Page(path) ==> s.user.Some? && !s.loading
    ensures (path == "/login" || path == "/register") && s.user.Some? ==>
              Screen(s, path) == if s.loading then Spinner else Redirect("/")
  {
  }

  /** The settings page is reachable without a user, so the OAuth callback
      is handled even before the profile loads, except during the initial
      check. */
  lemma SettingsUnguarded(s: AuthState)
    ensures Screen(s, "/settings") == if s.loading && s.user.None? && !TruthyOpt(s.error) then Spinner
                                      else Page("/settings")
  {
    assert "/settings" !in Protected;
  }

  /** After a failed sign-in, every protected path shows the error screen
      with the recorded message. */
  lemma FailedSignInShowsError(reply: AuthReply, session: AuthReply, profiles: string -> ProfileReply, path: string)
    requires reply.error.Some? && reply.error.value != ""
    requires path in Protected
    ensures Screen(SignIn(reply, session, profiles).state, path) == ErrorScreen(reply.error.value)
  {
  }

  /** A sign-in whose session loads a profile sends /login to `/`, which
      sends it on to the dashboard, which then shows. */
  lemma SignedInGoesToDashboard(reply: AuthReply, session: AuthReply, profiles: string -> ProfileReply)
    requires reply.error.None? && reply.user.Some?
    requires GetUser(session, profiles).user.Some?
    ensures var s := SignIn(reply, session, profiles).state;
            && Screen(s, "/login") == Redirect("/")
            && Screen(s, "/") == Redirect("/dashboard")
            && Screen(s, "/dashboard") == Page("/dashboard")
  {
    assert "/dashboard" in Protected;
    assert "/" !in Protected;
  }
}
