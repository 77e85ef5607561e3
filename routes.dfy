/** The two route guards of src/App.tsx, as decisions on the session's loading and
    authentication flags. */
module Routes {

  /** What a guard renders: the full-screen spinner, a redirect, or the guarded pages. */
  datatype Screen = Spinner | RedirectTo(path: string) | RenderChildren

  /** `ProtectedRoute`: the pages behind login. */
  function ProtectedRoute(isLoading: bool, isAuthenticated: bool): (s: Screen)
    ensures isLoading <==> s == Spinner
    ensures s == RenderChildren <==> !isLoading && isAuthenticated
    ensures s.RedirectTo? ==> s.path == "/login"
  {
    if isLoading then Spinner
    else if !isAuthenticated then RedirectTo("/login")
    else RenderChildren
  }

  /** `PublicRoute`: the login and register pages, for visitors only. */
  function PublicRoute(isLoading: bool, isAuthenticated: bool): (s: Screen)
    ensures isLoading <==> s == Spinner
    ensures s == RenderChildren <==> !isLoading && !isAuthenticated
    ensures s.RedirectTo? ==> s.path == "/dashboard"
  {
    if isLoading then Spinner
    else if isAuthenticated then RedirectTo("/dashboard")
    else RenderChildren
  }

  /** Once loading is over, exactly one of the two guards lets its pages through, and the
      other sends the visitor to the first one's landing page. */
  lemma ExactlyOneGuardRenders(isAuthenticated: bool)
    ensures (ProtectedRoute(false, isAuthenticated) == RenderChildren) != (PublicRoute(false, isAuthenticated) == RenderChildren)
    ensures isAuthenticated ==> PublicRoute(false, isAuthenticated) == RedirectTo("/dashboard")
    ensures !isAuthenticated ==> ProtectedRoute(false, isAuthenticated) == RedirectTo("/login")
  {
  }
}
