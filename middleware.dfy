/** The request guard that runs before every page: public routes, login redirect, home redirect. */
module Middleware {

  /** The routes reachable without a session. */
  const PublicRoutes: seq<string> := ["/", "/login", "/register", "/verify-email", "/check-email",
    "/forgot-password", "/reset-password", "/api/auth", "/api/trpc", "/_next", "/favicon.ico"]

  /** How one listed route matches a path: the root only exactly, every other route by prefix. */
  predicate RouteMatches(route: string, pathname: string)
  {
    if route == "/" then pathname == "/" else route <= pathname
  }

  /** `routes.some(...)`: does any of `routes` match `pathname`? */
  function AnyRouteMatches(routes: seq<string>, pathname: string): (r: bool)
    ensures r <==> exists i :: 0 <= i < |routes| && RouteMatches(routes[i], pathname)
  {
    if routes == [] then false
    else RouteMatches(routes[0], pathname) || AnyRouteMatches(routes[1..], pathname)
  }

  /** Is `pathname` public? */
  function IsPublicRoute(pathname: string): (r: bool)
    ensures r <==> pathname == "/" || exists i :: 1 <= i < |PublicRoutes| && PublicRoutes[i] <= pathname
  {
    var r := AnyRouteMatches(PublicRoutes, pathname);
    assert PublicRoutes[0] == "/";
    assert forall i :: 1 <= i < |PublicRoutes| ==> PublicRoutes[i] != "/";
    r
  }

  /** What the guard does with a request. */
  datatype Decision =
    | RedirectToLogin(callbackUrl: string)   // to `/login`, remembering where the user was going
    | RedirectHome                           // to `/`
    | PassThrough                            // the request goes on unchanged

  /** The guard callback for a request to `href` whose path is `pathname`. */
  function Guard(pathname: string, href: string, authenticated: bool): (d: Decision)
    ensures d.RedirectToLogin? <==> !authenticated && !IsPublicRoute(pathname)
    ensures d.RedirectToLogin? ==> d.callbackUrl == href
    ensures d.RedirectHome? <==> authenticated && (pathname == "/login" || pathname == "/register")
    ensures d.PassThrough? <==>
              (authenticated && pathname != "/login" && pathname != "/register") ||
              (!authenticated && IsPublicRoute(pathname))
  {
    if !authenticated && !IsPublicRoute(pathname) then RedirectToLogin(href)
    else if authenticated && (pathname == "/login" || pathname == "/register") then RedirectHome
    else PassThrough
  }

  /** Only the exact root path is public through the `/` entry. */
  lemma RootIsExact()
    ensures IsPublicRoute("/")
    ensures !IsPublicRoute("/dashboard")
    ensures Guard("/dashboard", "https://host/dashboard", false) == RedirectToLogin("https://host/dashboard")
  {
    var p := "/dashboard";
    forall i | 1 <= i < |PublicRoutes|
      ensures !(PublicRoutes[i] <= p)
    {
      // every other route has a second character, and none of them has a 'd' there
      assert |PublicRoutes[i]| >= 2 && PublicRoutes[i][1] != p[1];
    }
  }

  /**
   * The other routes match by prefix: any path that extends one of them, by a sub-path or by
   * any other characters, is public, and an anonymous request to it goes through.
   */
  lemma PrefixRoutesArePublic(i: nat, rest: string, href: string)
    requires 1 <= i < |PublicRoutes|
    ensures IsPublicRoute(PublicRoutes[i] + rest)
    ensures Guard(PublicRoutes[i] + rest, href, false) == PassThrough
  {
    assert PublicRoutes[i] <= PublicRoutes[i] + rest;
  }
}
