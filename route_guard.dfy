/** The client-side route guard: it renders its children unchanged and, when
    the local auth flag is off on a non-public page, navigates to `/signin`. */
module RouteGuard {
  import opened Wrappers

  /** Pages anyone may see; matched exactly. */
  const PublicPaths: seq<string> := ["/", "/signin", "/signup"]

  predicate IsPublic(pathname: string)
  {
    pathname in PublicPaths
  }

  /** What one render of `RouteGuard` produces: the children it returns and
      the navigation its effect pushes, if any. */
  datatype GuardOutput<T> = GuardOutput(rendered: T, push: Option<string>)

  /** The navigation the guard's effect issues. */
  function Navigation(isAuthenticated: bool, pathname: string): (r: Option<string>)
    ensures r.Some? <==> !isAuthenticated && !IsPublic(pathname)
    ensures r.Some? ==> r.value == "/signin"
  {
    if !isAuthenticated && !IsPublic(pathname) then Some("/signin") else None
  }

  /** `RouteGuard({children})`. */
  function Guard<T>(isAuthenticated: bool, pathname: string, children: T): (r: GuardOutput<T>)
    ensures r.rendered == children
    ensures r.push == Navigation(isAuthenticated, pathname)
  {
    GuardOutput(children, Navigation(isAuthenticated, pathname))
  }

  /** The guard never hides or changes its children: what it renders is the
      same whether or not the user is authenticated and on every path, even
      while it navigates away. */
  lemma {:induction false} GuardNeverHidesChildren<T>(a1: bool, p1: string, a2: bool, p2: string, children: T)
    ensures Guard(a1, p1, children).rendered == Guard(a2, p2, children).rendered == children
    ensures Guard(a1, p1, children).push.Some? ==> Guard(a1, p1, children).rendered == children
  {
  }

  /** Public paths are exactly the three listed ones: a sub-path of a public
      path is not public. */
  lemma PublicIsExact()
    ensures IsPublic("/") && IsPublic("/signin") && IsPublic("/signup")
    ensures !IsPublic("") && !IsPublic("/signin/") && !IsPublic("/dashboard")
  {
  }

  /** An authenticated user is never redirected, and a public page never redirects. */
  lemma NeverRedirected<T>(isAuthenticated: bool, pathname: string, children: T)
    ensures isAuthenticated ==> Guard(isAuthenticated, pathname, children).push.None?
    ensures IsPublic(pathname) ==> Guard(isAuthenticated, pathname, children).push.None?
  {
  }

  /** The page the guard sends a visitor to is itself public, so the guard
      never redirects twice in a row. */
  lemma {:induction false} RedirectTargetIsPublic(isAuthenticated: bool, pathname: string)
    requires Navigation(isAuthenticated, pathname).Some?
    ensures Navigation(isAuthenticated, Navigation(isAuthenticated, pathname).value).None?
  {
    assert PublicPaths[1] == "/signin";
  }
}
