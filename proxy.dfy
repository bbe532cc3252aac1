/** The route guard of proxy.ts, run by Next.js before a page request. */
module Proxy {
  import opened Common

  const PublicRoutes: seq<string> := ["/login", "/register"]
  const ProtectedRoutes: seq<string> := ["/admin", "/agent", "/customer", "/dashboard"]

  datatype Decision = Redirect(to: string) | Next

  /** `routes.some((route) => pathname.startsWith(route))`. */
  predicate SomePrefix(pathname: string, routes: seq<string>) {
    exists k | 0 <= k < |routes| :: StartsWith(pathname, routes[k])
  }

  predicate IsPublicRoute(pathname: string) {
    SomePrefix(pathname, PublicRoutes)
  }

  predicate IsProtectedRoute(pathname: string) {
    SomePrefix(pathname, ProtectedRoutes)
  }

  /** `proxy(request)`: `token` is the value of the "tokens" cookie, if any. */
  function Proxy(pathname: string, token: Option<string>): (d: Decision)
    ensures d == Redirect("/login") <==> IsProtectedRoute(pathname) && !Truthy(token)
    ensures d == Redirect("/") <==> IsPublicRoute(pathname) && Truthy(token)
    ensures d.Redirect? ==> d.to == "/login" || d.to == "/"
  {
    if IsProtectedRoute(pathname) && !Truthy(token) then Redirect("/login")
    else if IsPublicRoute(pathname) && Truthy(token) then Redirect("/")
    else Next
  }

  /** No path is both public and protected, so at most one rule applies to a path. */
  lemma RoutesDisjoint(pathname: string)
    ensures !(IsPublicRoute(pathname) && IsProtectedRoute(pathname))
  {
    forall i, j | 0 <= i < |PublicRoutes| && 0 <= j < |ProtectedRoutes|
      ensures !(StartsWith(pathname, PublicRoutes[i]) && StartsWith(pathname, ProtectedRoutes[j]))
    {
      if StartsWith(pathname, PublicRoutes[i]) {
        assert pathname[1] == PublicRoutes[i][1];
      }
    }
  }

  /** The guard reads the cookie only for its truthiness: an empty value is no token. */
  lemma ProxyTokenTruthiness(pathname: string, a: Option<string>, b: Option<string>)
    requires Truthy(a) == Truthy(b)
    ensures Proxy(pathname, a) == Proxy(pathname, b)
  {
  }

  /** A session cookie never lands on the login page, and no token never reaches a dashboard. */
  lemma ProxyGuarantees(pathname: string, token: Option<string>)
    ensures IsProtectedRoute(pathname) && Proxy(pathname, token) == Next ==> Truthy(token)
    ensures IsPublicRoute(pathname) && Proxy(pathname, token) == Next ==> !Truthy(token)
  {
    RoutesDisjoint(pathname);
  }

  /** The prefix test is textual: "/administrator" is protected and "/loginhelp" public. */
  lemma ProxyPrefixExamples()
    ensures Proxy("/administrator", None) == Redirect("/login")
    ensures Proxy("/loginhelp", Some("t")) == Redirect("/")
    ensures Proxy("/track/ABC", None) == Next
    ensures Proxy("/admin/parcels", Some("")) == Redirect("/login")
  {
    assert StartsWith("/administrator", ProtectedRoutes[0]);
    assert StartsWith("/loginhelp", PublicRoutes[0]);
    assert StartsWith("/admin/parcels", ProtectedRoutes[0]);
    var p := "/track/ABC";
    forall k | 0 <= k < |ProtectedRoutes| ensures !StartsWith(p, ProtectedRoutes[k]) {
      assert ProtectedRoutes[k][1] != p[1];
    }
  }

  /** The `matcher` of the exported config, `/((?!api|_next/static|_next/image|favicon.ico).*)`:
      every path except those whose first segment starts with one of the excluded names
      (the `.` of "favicon.ico" matches any character). */
  predicate MatcherApplies(pathname: string) {
    StartsWith(pathname, "/") &&
    var rest := pathname[1..];
    !StartsWith(rest, "api") && !StartsWith(rest, "_next/static") && !StartsWith(rest, "_next/image") &&
    !(|rest| >= 11 && rest[..7] == "favicon" && rest[8..11] == "ico")
  }

  /** Every guarded page prefix is inside the matcher, so requests for them do reach `proxy`. */
  lemma MatcherCoversGuardedRoutes(pathname: string)
    requires IsPublicRoute(pathname) || IsProtectedRoute(pathname)
    ensures MatcherApplies(pathname)
  {
    var routes := if IsPublicRoute(pathname) then PublicRoutes else ProtectedRoutes;
    var k :| 0 <= k < |routes| && StartsWith(pathname, routes[k]);
    var rest := pathname[1..];
    assert rest[0] == routes[k][1] && rest[1] == routes[k][2];
  }
}
