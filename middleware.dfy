/** The edge middleware: from whether a session exists and the request's
    pathname it decides to let the request through, send an anonymous visitor
    to the sign-in page, or send a signed-in user to the dashboard. The
    `config.matcher` pattern decides which pathnames reach it at all. */
module Middleware {
  import opened Text

  /** Routes that need a session; matched by prefix. */
  const ProtectedRoutes: seq<string> := ["/dashboard", "/settings"]

  /** Routes only an anonymous visitor should see; matched exactly. */
  const AuthRoutes: seq<string> := ["/signin", "/signup"]

  /** A redirect target on the request's own origin: a path and its query parameters. */
  datatype Url = Url(path: string, query: seq<(string, string)>)

  datatype Response = Next | Redirect(location: Url)

  /** `protectedRoutes.some(path => pathname.startsWith(path))`. */
  predicate IsProtectedRoute(pathname: string)
  {
    exists i :: 0 <= i < |ProtectedRoutes| && StartsWith(pathname, ProtectedRoutes[i])
  }

  /** `authRoutes.includes(pathname)`. */
  predicate IsAuthRoute(pathname: string)
  {
    pathname in AuthRoutes
  }

  /** `/signin?redirect=<pathname>`. */
  function SignInRedirect(pathname: string): Url
  {
    Url("/signin", [("redirect", pathname)])
  }

  const DashboardUrl: Url := Url("/dashboard", [])

  /** The body of `middleware` once the session has been looked up. */
  function Decide(hasSession: bool, pathname: string): (r: Response)
    ensures r.Redirect? && r.location.path == "/signin" <==> !hasSession && IsProtectedRoute(pathname)
    ensures r.Redirect? && r.location.path == "/signin" ==>
              r.location.query == [("redirect", pathname)]
    ensures r == Redirect(DashboardUrl) <==> hasSession && IsAuthRoute(pathname)
    ensures r == Next <==> (hasSession ==> !IsAuthRoute(pathname)) && (!hasSession ==> !IsProtectedRoute(pathname))
    ensures r.Redirect? ==> r.location.path in {"/signin", "/dashboard"}
  {
    if !hasSession then
      if IsProtectedRoute(pathname) then Redirect(SignInRedirect(pathname)) else Next
    else
      if IsAuthRoute(pathname) then Redirect(DashboardUrl) else Next
  }

  /** One alternative of the matcher's negative lookahead, applied to the text
      after the leading `/`. In the pattern `favicon.ico` the dot is a regular
      expression wildcard, so it matches any character there. */
  predicate ExcludedAsWritten(rest: string)
  {
    || StartsWith(rest, "_next/static")
    || StartsWith(rest, "_next/image")
    || (|rest| >= 11 && rest[..7] == "favicon" && rest[8..11] == "ico")
    || StartsWith(rest, "public/")
  }

  /** The exclusion the matcher's comment describes: the four literal prefixes. */
  predicate Excluded(rest: string)
  {
    || StartsWith(rest, "_next/static")
    || StartsWith(rest, "_next/image")
    || StartsWith(rest, "favicon.ico")
    || StartsWith(rest, "public/")
  }

  /** `/((?!_next/static|_next/image|favicon.ico|public/).*)` matched against the whole pathname. */
  predicate MatcherAsWritten(pathname: string)
  {
    |pathname| >= 1 && pathname[0] == '/' && !ExcludedAsWritten(pathname[1..])
  }

  /** The matcher with the dot read literally. */
  predicate Matcher(pathname: string)
  {
    |pathname| >= 1 && pathname[0] == '/' && !Excluded(pathname[1..])
  }

  /** What a request receives: excluded paths never reach the middleware. */
  function Handle(hasSession: bool, pathname: string): (r: Response)
    ensures !Matcher(pathname) ==> r == Next
    ensures Matcher(pathname) ==> r == Decide(hasSession, pathname)
  {
    if Matcher(pathname) then Decide(hasSession, pathname) else Next
  }

  /** `some` over the two protected routes is a plain prefix test. */
  lemma ProtectedIsPrefixMatch(pathname: string)
    ensures IsProtectedRoute(pathname) <==> StartsWith(pathname, "/dashboard") || StartsWith(pathname, "/settings")
  {
    if StartsWith(pathname, "/dashboard") {
      assert StartsWith(pathname, ProtectedRoutes[0]);
    }
    if StartsWith(pathname, "/settings") {
      assert StartsWith(pathname, ProtectedRoutes[1]);
    }
  }

  /** The prefix match also covers sub-paths and longer names; the exact match does not. */
  lemma PrefixAndExactExamples()
    ensures IsProtectedRoute("/settings/x") && IsProtectedRoute("/dashboardfoo")
    ensures !IsProtectedRoute("/") && !IsProtectedRoute("/signin")
    ensures IsAuthRoute("/signup") && !IsAuthRoute("/signin/") && !IsAuthRoute("/signup/x")
  {
    ProtectedIsPrefixMatch("/settings/x");
    ProtectedIsPrefixMatch("/dashboardfoo");
    ProtectedIsPrefixMatch("/");
    ProtectedIsPrefixMatch("/signin");
  }

  /** An anonymous visitor is never sent to the dashboard, a signed-in user never to sign-in. */
  lemma RedirectTargetsBySession(hasSession: bool, pathname: string)
    ensures !hasSession ==> Handle(hasSession, pathname) != Redirect(DashboardUrl)
    ensures hasSession ==> !(Handle(hasSession, pathname).Redirect? && Handle(hasSession, pathname).location.path == "/signin")
  {
  }

  /** Following a redirect never causes a second one for the same session. */
  lemma {:induction false} NoRedirectLoop(hasSession: bool, pathname: string)
    requires Handle(hasSession, pathname).Redirect?
    ensures Handle(hasSession, Handle(hasSession, pathname).location.path) == Next
  {
    ProtectedIsPrefixMatch("/signin");
    assert !IsAuthRoute("/dashboard");
  }

  /** Every protected or auth-only path reaches the middleware. */
  lemma {:induction false} GuardedPathsAreMatched(pathname: string)
    requires IsProtectedRoute(pathname) || IsAuthRoute(pathname)
    ensures Matcher(pathname) && MatcherAsWritten(pathname)
  {
    ProtectedIsPrefixMatch(pathname);
    var rest := pathname[1..];
    assert |rest| >= 5;
    assert rest[0] in {'d', 's'};
  }

  /** The literal reading of the matcher leaves every response as the
      decision alone would give it, and so does the pattern as written: the
      paths the two readings let through unchecked never redirect. */
  lemma {:induction false} MatcherNeverChangesResponse(hasSession: bool, pathname: string)
    ensures Handle(hasSession, pathname) == Decide(hasSession, pathname)
    ensures (if MatcherAsWritten(pathname) then Decide(hasSession, pathname) else Next) == Decide(hasSession, pathname)
  {
    if IsProtectedRoute(pathname) || IsAuthRoute(pathname) {
      GuardedPathsAreMatched(pathname);
    }
  }

  /** The wildcard in `favicon.ico` lets `/faviconXico` bypass the middleware. */
  lemma FaviconWildcard()
    ensures !MatcherAsWritten("/faviconXico") && Matcher("/faviconXico")
  {
    assert "/faviconXico"[1..] == "faviconXico";
    assert "faviconXico"[..7] == "favicon";
    assert "faviconXico"[..11][7] != "favicon.ico"[7];
    assert "faviconXico"[0] != '_' && "faviconXico"[0] != 'p';
  }

  /** The literal reading excludes a subset of what the pattern as written
      excludes, and the two differ only in the character after `favicon`. */
  lemma {:induction false} LiteralMatcherRefines(pathname: string)
    ensures MatcherAsWritten(pathname) ==> Matcher(pathname)
    ensures Matcher(pathname) && !MatcherAsWritten(pathname) ==>
              |pathname| >= 12 && pathname[1..8] == "favicon" && pathname[8] != '.' && pathname[9..12] == "ico"
    ensures !Matcher("/favicon.ico") && !Matcher("/_next/static/chunk.js") && !Matcher("/public/logo.png")
  {
    if |pathname| >= 1 {
      var rest := pathname[1..];
      if StartsWith(rest, "favicon.ico") {
        assert rest[..7] == "favicon" && rest[8..11] == "ico";
      }
      if |rest| >= 11 && rest[..7] == "favicon" && rest[8..11] == "ico" && rest[7] == '.' {
        assert rest[..11] == "favicon.ico";
      }
    }
    assert "/favicon.ico"[1..] == "favicon.ico";
    assert "/_next/static/chunk.js"[1..][..12] == "_next/static";
    assert "/public/logo.png"[1..][..7] == "public/";
  }
}
