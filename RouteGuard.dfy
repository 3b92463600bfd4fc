/**
 * The edge middleware that guards page routes: from the request path and the
 * request's cookies it decides to redirect to the login page, to redirect to
 * the community feed, or to let the request through.
 */
module RouteGuard {
  import opened Common

  const AuthCookie: string := "fitstream_auth"

  /** Pages that need no authentication. */
  const PublicRoutes: seq<string> := ["/login", "/cadastro", "/esqueci-senha", "/", "/install"]

  /** Pages that need authentication. */
  const ProtectedRoutes: seq<string> := ["/comunidade", "/programas", "/treinos", "/perfil", "/premium"]

  datatype Decision = Next | Redirect(target: string)

  /** A cookie counts when it is present at all, whatever its value (even empty). */
  predicate IsAuthenticated(cookies: map<string, string>)
  {
    AuthCookie in cookies
  }

  /** `publicRoutes.some(route => pathname === route || pathname.startsWith(route))`. */
  predicate IsPublicRoute(pathname: string)
  {
    exists i :: 0 <= i < |PublicRoutes| && (pathname == PublicRoutes[i] || StartsWith(pathname, PublicRoutes[i]))
  }

  /** `protectedRoutes.some(route => pathname.startsWith(route))`: prefix matching only. */
  predicate IsProtectedRoute(pathname: string)
  {
    exists i :: 0 <= i < |ProtectedRoutes| && StartsWith(pathname, ProtectedRoutes[i])
  }

  /** The four rules of the middleware, in their order. */
  function Middleware(pathname: string, cookies: map<string, string>): (d: Decision)
    ensures d == Next || d == Redirect("/login") || d == Redirect("/comunidade")
  {
    var isAuthenticated := IsAuthenticated(cookies);
    var isPublicRoute := IsPublicRoute(pathname);
    var isProtectedRoute := IsProtectedRoute(pathname);
    // Rule 1: unauthenticated request for a protected page
    if !isAuthenticated && isProtectedRoute then Redirect("/login")
    // Rule 2: authenticated request for exactly the login or signup page
    else if isAuthenticated && (pathname == "/login" || pathname == "/cadastro") then Redirect("/comunidade")
    // Rule 3: public page without authentication
    else if isPublicRoute && !isAuthenticated then Next
    // Rule 4: protected page with authentication
    else if isProtectedRoute && isAuthenticated then Next
    else Next
  }

  /** The complete decision table: rules 3 and 4 and the fall-through all let the request through. */
  lemma MiddlewareTable(pathname: string, cookies: map<string, string>)
    ensures (Middleware(pathname, cookies) == Redirect("/login"))
            <==> (!IsAuthenticated(cookies) && IsProtectedRoute(pathname))
    ensures (Middleware(pathname, cookies) == Redirect("/comunidade"))
            <==> (IsAuthenticated(cookies) && (pathname == "/login" || pathname == "/cadastro"))
    ensures (Middleware(pathname, cookies) == Next)
            <==> (!(!IsAuthenticated(cookies) && IsProtectedRoute(pathname))
                  && !(IsAuthenticated(cookies) && (pathname == "/login" || pathname == "/cadastro")))
  {
    if pathname == "/login" || pathname == "/cadastro" {
      NotProtected(pathname);
    }
  }

  /** Only the presence of the cookie matters, never its value. */
  lemma CookieValueIrrelevant(pathname: string, cookies: map<string, string>, others: map<string, string>)
    requires (AuthCookie in cookies) == (AuthCookie in others)
    ensures Middleware(pathname, cookies) == Middleware(pathname, others)
  {
  }

  /** Because "/" is in the public list and matched by prefix, every absolute path is public. */
  lemma {:induction false} EveryAbsolutePathIsPublic(pathname: string)
    requires StartsWith(pathname, "/")
    ensures IsPublicRoute(pathname)
  {
    assert PublicRoutes[3] == "/";
  }

  /** The empty path is neither public nor protected. */
  lemma EmptyPathIsNeither()
    ensures !IsPublicRoute("") && !IsProtectedRoute("")
  {
  }

  /** Protected matching is by prefix: "/perfil-x" and "/premium/abc" are protected. */
  lemma PrefixIsProtected(suffix: string)
    ensures IsProtectedRoute("/perfil" + suffix)
    ensures IsProtectedRoute("/premium" + suffix)
    ensures IsProtectedRoute("/comunidade" + suffix)
  {
    assert ("/perfil" + suffix)[..|ProtectedRoutes[3]|] == ProtectedRoutes[3];
    assert ("/premium" + suffix)[..|ProtectedRoutes[4]|] == ProtectedRoutes[4];
    assert ("/comunidade" + suffix)[..|ProtectedRoutes[0]|] == ProtectedRoutes[0];
  }

  lemma NotProtected(pathname: string)
    requires pathname == "/login" || pathname == "/cadastro"
    ensures !IsProtectedRoute(pathname)
  {
    forall i | 0 <= i < |ProtectedRoutes| ensures !StartsWith(pathname, ProtectedRoutes[i]) {
      assert pathname[1] != ProtectedRoutes[i][1] || pathname[2] != ProtectedRoutes[i][2];
    }
  }

  /** An authenticated request is never sent to /login, an unauthenticated one never to /comunidade. */
  lemma RedirectsMatchAuthentication(pathname: string, cookies: map<string, string>)
    ensures IsAuthenticated(cookies) ==> Middleware(pathname, cookies) != Redirect("/login")
    ensures !IsAuthenticated(cookies) ==> Middleware(pathname, cookies) != Redirect("/comunidade")
  {
  }

  /** Only exact /login and /cadastro bounce an authenticated user: "/login/x" goes through. */
  lemma LoginSubpathNotBounced(cookies: map<string, string>)
    requires IsAuthenticated(cookies)
    ensures Middleware("/login/x", cookies) == Next
  {
    assert !IsProtectedRoute("/login/x") by {
      forall i | 0 <= i < |ProtectedRoutes| ensures !StartsWith("/login/x", ProtectedRoutes[i]) {
        assert "/login/x"[1] == 'l';
      }
    }
  }
}
