/** The guard around the authenticated screens: a spinner while the session loads, a
    redirect to the login screen without a session, the guarded screen otherwise. */
module AuthGuard {
  import opened Wrappers
  import AuthContext
  import Ui

  datatype View = Spinner | RedirectPlaceholder | Children

  /** What the guard renders. */
  function Render(loading: bool, isAuthenticated: bool): (v: View)
    ensures v == Spinner <==> loading
    ensures v == RedirectPlaceholder <==> !loading && !isAuthenticated
    ensures v == Children <==> !loading && isAuthenticated
  {
    if loading then Spinner else if !isAuthenticated then RedirectPlaceholder else Children
  }

  /** Where the effect redirects to, if anywhere. */
  function Redirect(loading: bool, isAuthenticated: bool): (r: Option<string>)
    ensures r.Some? <==> !loading && !isAuthenticated
    ensures r.Some? ==> r.value == Ui.LoginRoute
  {
    if !loading && !isAuthenticated then Some(Ui.LoginRoute) else None
  }

  /** The redirect fires exactly when the placeholder is on screen. */
  lemma RedirectIffPlaceholder(loading: bool, isAuthenticated: bool)
    ensures Redirect(loading, isAuthenticated).Some? <==> Render(loading, isAuthenticated) == RedirectPlaceholder
  {
  }

  /** In terms of the session token: the guarded screen shows exactly when loading is
      over and a non-empty token is held. */
  lemma ChildrenIffToken(loading: bool, token: Option<string>)
    ensures Render(loading, AuthContext.IsAuthenticated(token)) == Children
            <==> !loading && token.Some? && token.value != ""
  {
  }
}
