/** The per-request route guard: a pure decision on the request's pathname
    and the `auth_token` cookie. */
module RouteGuard {
  import opened Common
  import opened JsString

  const ProtectedRoutes: seq<string> := ["/dashboard", "/todos"]
  const AuthRoutes: seq<string> := ["/login", "/register"]

  /** The guard's answer: redirect to `path`, with a `callbackUrl` query
      parameter when one is given, or let the request through. */
  datatype Decision = Redirect(path: string, callbackUrl: Option<string>) | Next

  /** `routes.some(route => pathname.startsWith(route))`. */
  function SomeStartsWith(routes: seq<string>, pathname: string): (r: bool)
    ensures r <==> exists i :: 0 <= i < |routes| && StartsWith(pathname, routes[i])
  {
    if routes == [] then false
    else StartsWith(pathname, routes[0]) || SomeStartsWith(routes[1..], pathname)
  }

  predicate IsProtectedRoute(pathname: string)
  {
    SomeStartsWith(ProtectedRoutes, pathname)
  }

  predicate IsAuthRoute(pathname: string)
  {
    SomeStartsWith(AuthRoutes, pathname)
  }

  /** The guard's `token` / `!token` tests on the `auth_token` cookie value:
      only a present, non-empty value counts as a session. */
  predicate HasSession(cookie: Option<string>)
  {
    Truthy(cookie)
  }

  /** The guard. Each outcome is characterised by its condition alone, so
      the order of the checks never decides between two rules. */
  function Middleware(pathname: string, cookie: Option<string>): (r: Decision)
    ensures r == Redirect("/login", Some(pathname))
      <==> IsProtectedRoute(pathname) && !HasSession(cookie)
    ensures r == Redirect("/todos", None)
      <==> HasSession(cookie) && (IsAuthRoute(pathname) || pathname == "/")
    ensures r == Redirect("/login", None)
      <==> pathname == "/" && !HasSession(cookie)
    ensures r == Next
      <==> || (!IsProtectedRoute(pathname) && !IsAuthRoute(pathname) && pathname != "/")
           || (IsProtectedRoute(pathname) && HasSession(cookie))
           || (IsAuthRoute(pathname) && !HasSession(cookie))
  {
    RoutesDisjoint(pathname);
    var token := HasSession(cookie);
    if IsProtectedRoute(pathname) && !token then Redirect("/login", Some(pathname))
    else if IsAuthRoute(pathname) && token then Redirect("/todos", None)
    else if pathname == "/" then
      if token then Redirect("/todos", None) else Redirect("/login", None)
    else Next
  }

  /** No pathname is both protected and auth-only, and the root is neither:
      the prefixes of the two lists already differ in their second
      character, and `/` is shorter than all of them. */
  lemma RoutesDisjoint(pathname: string)
    ensures !(IsProtectedRoute(pathname) && IsAuthRoute(pathname))
    ensures pathname == "/" ==> !IsProtectedRoute(pathname) && !IsAuthRoute(pathname)
  {
    if IsProtectedRoute(pathname) {
      var i :| 0 <= i < |ProtectedRoutes| && StartsWith(pathname, ProtectedRoutes[i]);
      assert pathname[1] == ProtectedRoutes[i][1] && pathname[1] in "dt";
    }
    if IsAuthRoute(pathname) {
      var j :| 0 <= j < |AuthRoutes| && StartsWith(pathname, AuthRoutes[j]);
      assert pathname[1] == AuthRoutes[j][1] && pathname[1] in "lr";
    }
  }

  /** With the same cookie, the target of every redirect is let through:
      the guard never redirects twice in a row. */
  lemma NoRedirectLoop(pathname: string, cookie: Option<string>)
    ensures Middleware(pathname, cookie).Redirect? ==> Middleware(Middleware(pathname, cookie).path, cookie) == Next
  {
    assert IsAuthRoute("/login") by {
      assert StartsWith("/login", AuthRoutes[0]);
    }
    assert IsProtectedRoute("/todos") by {
      assert StartsWith("/todos", ProtectedRoutes[1]);
    }
  }

  /** Only whether the cookie is present and non-empty matters, never its
      value; an empty cookie is the same as none. */
  lemma OnlyPresenceMatters(pathname: string, c1: Option<string>, c2: Option<string>)
    requires HasSession(c1) == HasSession(c2)
    ensures Middleware(pathname, c1) == Middleware(pathname, c2)
    ensures Middleware(pathname, Some("")) == Middleware(pathname, None)
  {
  }

  /** A nested protected path keeps its full pathname as the callback. */
  lemma NestedTodoRedirects()
    ensures Middleware("/todos/5", None) == Redirect("/login", Some("/todos/5"))
    ensures Middleware("/dashboard", Some("")) == Redirect("/login", Some("/dashboard"))
    ensures Middleware("/login", Some("t")) == Redirect("/todos", None)
  {
    assert StartsWith("/todos/5", ProtectedRoutes[1]);
    assert StartsWith("/dashboard", ProtectedRoutes[0]);
    assert StartsWith("/login", AuthRoutes[0]);
  }
}
