/** The request guard run before every page: static files, API routes, the
    login page and anything with a dot pass straight through; every other
    path needs an `auth_token` cookie whose JWT verifies, and otherwise is
    redirected to `/login`, the cookie being deleted when it failed to
    verify. Verification (signature and expiry against the server secret)
    is an oracle `verifies`. */
module Guard {
  import opened Seqs

  const SessionCookie: string := "auth_token"
  const LoginPath: string := "/login"

  datatype Request = Request(path: string, cookies: map<string, string>)

  /** Pass the request on, or redirect it, optionally deleting the session cookie. */
  datatype Response = Next | Redirect(location: string, deletesSession: bool)

  predicate StartsWith(s: string, prefix: string) {
    prefix <= s
  }

  /** The paths the guard never checks. These are raw prefix tests, so
      `/login-x` and `/apiary` are excluded too. */
  predicate Excluded(path: string) {
    || StartsWith(path, "/_next")
    || StartsWith(path, "/api")
    || StartsWith(path, "/login")
    || '.' in path
  }

  /** The session token as the guard sees it: an absent cookie and an empty
      one are both "no token" (`!token`). */
  function SessionToken(r: Request): Option<string>
  {
    if SessionCookie in r.cookies && r.cookies[SessionCookie] != "" then Some(r.cookies[SessionCookie]) else None
  }

  /** The middleware's decision for one request. */
  function Middleware(r: Request, verifies: string -> bool): (resp: Response)
    ensures Excluded(r.path) ==> resp == Next
    ensures !Excluded(r.path) && SessionToken(r).None? ==> resp == Redirect(LoginPath, false)
    ensures !Excluded(r.path) && SessionToken(r).Some? && verifies(SessionToken(r).value) ==> resp == Next
    ensures !Excluded(r.path) && SessionToken(r).Some? && !verifies(SessionToken(r).value)
            ==> resp == Redirect(LoginPath, true)
  {
    if StartsWith(r.path, "/_next") || StartsWith(r.path, "/api") || StartsWith(r.path, "/login") || '.' in r.path then
      Next
    else if !(SessionCookie in r.cookies) || r.cookies[SessionCookie] == "" then
      Redirect(LoginPath, false)
    else if verifies(r.cookies[SessionCookie]) then
      Next
    else
      Redirect(LoginPath, true)
  }

  /** The three outcomes, each characterised by its inputs: a request passes
      exactly when its path is excluded or its token verifies; it is
      redirected with the cookie deleted exactly when a present token fails
      to verify; every redirect goes to the login page. */
  lemma MiddlewareOutcomes(r: Request, verifies: string -> bool)
    ensures Middleware(r, verifies) == Next
            <==> Excluded(r.path) || (SessionToken(r).Some? && verifies(SessionToken(r).value))
    ensures Middleware(r, verifies) == Redirect(LoginPath, true)
            <==> !Excluded(r.path) && SessionToken(r).Some? && !verifies(SessionToken(r).value)
    ensures Middleware(r, verifies) == Redirect(LoginPath, false)
            <==> !Excluded(r.path) && SessionToken(r).None?
    ensures Middleware(r, verifies).Redirect? ==> Middleware(r, verifies).location == LoginPath
  {
  }

  /** An excluded path passes whatever cookies it carries and whatever the
      verifier says. */
  lemma ExcludedIgnoresToken(path: string, c1: map<string, string>, c2: map<string, string>,
                             v1: string -> bool, v2: string -> bool)
    requires Excluded(path)
    ensures Middleware(Request(path, c1), v1) == Middleware(Request(path, c2), v2) == Next
  {
  }

  /** `!token` makes an empty `auth_token` cookie indistinguishable from
      a missing one: both are redirected without deleting anything. */
  lemma EmptyCookieIsNoCookie(path: string, cookies: map<string, string>, verifies: string -> bool)
    ensures Middleware(Request(path, cookies[SessionCookie := ""]), verifies)
            == Middleware(Request(path, cookies - {SessionCookie}), verifies)
    ensures !Excluded(path) ==> Middleware(Request(path, cookies[SessionCookie := ""]), verifies) == Redirect(LoginPath, false)
  {
  }

  /** The prefix tests are on raw characters. */
  lemma RawPrefixExamples()
    ensures Excluded("/login-x") && Excluded("/apiary") && Excluded("/_nextfoo") && Excluded("/report.pdf")
    ensures !Excluded("/") && !Excluded("/dashboard")
  {
    assert "/dashboard"[1] != "/api"[1];
    assert "/dashboard"[1] != "/login"[1];
    assert "/dashboard"[1] != "/_next"[1];
  }

  /** The alternatives of the negative lookahead in the route matcher
      `/((?!api|_next/static|_next/image|favicon.ico).*)`. Its `.` is not
      escaped and matches any character. */
  predicate LookaheadHits(rest: string) {
    || StartsWith(rest, "api")
    || StartsWith(rest, "_next/static")
    || StartsWith(rest, "_next/image")
    || (|rest| >= 11 && rest[..7] == "favicon" && rest[8..11] == "ico")
  }

  /** The paths the middleware is run on. */
  predicate MatcherSelects(path: string) {
    |path| >= 1 && path[0] == '/' && !LookaheadHits(path[1..])
  }

  /** A request as served: the middleware decides for the paths the matcher
      selects, every other path passes through. */
  function Handle(r: Request, verifies: string -> bool): (resp: Response)
    ensures !MatcherSelects(r.path) ==> resp == Next
    ensures MatcherSelects(r.path) ==> resp == Middleware(r, verifies)
    ensures resp.Redirect? ==> resp.location == LoginPath && !Excluded(r.path)
    ensures resp.Redirect? && resp.deletesSession ==> SessionToken(r).Some? && !verifies(SessionToken(r).value)
    ensures MatcherSelects(r.path) && !Excluded(r.path) && SessionToken(r).None? ==> resp == Redirect(LoginPath, false)
  {
    if MatcherSelects(r.path) then Middleware(r, verifies) else Next
  }

  /** A path the matcher leaves out is one the middleware itself excludes,
      except for the paths that look like `/favicon?ico` with some other
      character than a dot in the place of the dot. */
  lemma MatcherSkipsOnlyExcludedPaths(path: string)
    requires |path| >= 1 && path[0] == '/'
    requires !MatcherSelects(path)
    ensures Excluded(path) || (|path| >= 12 && path[1..8] == "favicon" && path[9..12] == "ico" && path[8] != '.')
  {
    var rest := path[1..];
    assert path == "/" + rest;
    if StartsWith(rest, "api") {
      assert path[..4] == "/" + rest[..3];
    } else if StartsWith(rest, "_next/static") || StartsWith(rest, "_next/image") {
      assert rest[..5] == "_next";
      assert path[..6] == "/" + rest[..5];
    } else {
      assert |rest| >= 11 && rest[..7] == "favicon" && rest[8..11] == "ico";
      assert path[1..8] == rest[..7];
      assert path[9..12] == rest[8..11];
      if path[8] == '.' {
        assert '.' in path;
      }
    }
  }

  /** Because of that wildcard, an unauthenticated request for
      `/faviconXico` is served, although the middleware would redirect it. */
  lemma FaviconWildcardPassesUnchecked(verifies: string -> bool)
    ensures Middleware(Request("/faviconXico", map[]), verifies) == Redirect(LoginPath, false)
    ensures Handle(Request("/faviconXico", map[]), verifies) == Next
  {
    var rest := "/faviconXico"[1..];
    assert rest == "faviconXico";
    assert rest[..7] == "favicon" && rest[8..11] == "ico";
    assert "/faviconXico"[1] != "/_next"[1];
    assert "/faviconXico"[1] != "/api"[1];
    assert "/faviconXico"[1] != "/login"[1];
  }
}
