/**
 * The route guard of middleware.ts: a path under a protected prefix needs a `session_token`
 * cookie, and without one the request is redirected to the login page with the path it asked
 * for in `redirect`.
 */
module Middleware {
  import opened Wrappers
  import opened Strings
  import opened Config
  import opened Url

  const ProtectedRoutes: seq<string> := ["/antiguo/portal"]

  /** The cookie the guard looks for. */
  const GuardCookie: string := "session_token"

  const LoginPath: string := "/antiguo"

  /** `?` and the serialised name `redirect` (made of characters the serialiser keeps) with `=`. */
  const RedirectPrefix: string := "?redirect="

  datatype Decision = Next | Redirect(status: int, location: Url)

  /** `protectedRoutes.some(route => pathname.startsWith(route))`. */
  predicate IsProtected(pathname: string) {
    exists i :: 0 <= i < |ProtectedRoutes| && StartsWith(pathname, ProtectedRoutes[i])
  }

  /** Protection is a plain prefix test: every path that begins with `/antiguo/portal` is
      protected, `/antiguo/portalX` included, and no other path is. */
  lemma IsProtectedIff(pathname: string)
    ensures IsProtected(pathname) <==> StartsWith(pathname, "/antiguo/portal")
  {
    if StartsWith(pathname, "/antiguo/portal") {
      assert StartsWith(pathname, ProtectedRoutes[0]);
    }
  }

  /** `new URL("/antiguo", request.url)` with `redirect` set to the requested path: same scheme,
      credentials and host, an empty fragment, and the path form-encoded as the only parameter. */
  function LoginUrl(request: Url, pathname: string): (r: Url)
    ensures r.pathname == LoginPath && r.hash == ""
    ensures r.protocol == request.protocol && r.host == request.host
    ensures r.search == RedirectPrefix + FormEncode(pathname)
  {
    Url(request.protocol, request.username, request.password, request.host, LoginPath,
        RedirectPrefix + FormEncode(pathname), "")
  }

  /** The guard on the cookie named `cookie`: the source checks `GuardCookie`. */
  function Guard(request: Url, cookies: map<string, string>, cookie: string): (d: Decision)
    ensures d.Redirect? <==>
              IsProtected(request.pathname) && !(cookie in cookies && cookies[cookie] != "")
    ensures d.Redirect? ==> d.status == 307 && d.location == LoginUrl(request, request.pathname)
  {
    var token := if cookie in cookies then Some(cookies[cookie]) else None;
    if IsProtected(request.pathname) && !Truthy(token) then
      Redirect(307, LoginUrl(request, request.pathname))
    else Next
  }

  /** `middleware(request)`. */
  function Middleware(request: Url, cookies: map<string, string>): (d: Decision)
    ensures d.Redirect? <==>
              StartsWith(request.pathname, "/antiguo/portal")
              && !(GuardCookie in cookies && cookies[GuardCookie] != "")
  {
    IsProtectedIff(request.pathname);
    Guard(request, cookies, GuardCookie)
  }

  /** The guard only looks for a non-empty cookie: any value lets a request through, signed or
      not. */
  lemma AnyValuePasses(request: Url, cookies: map<string, string>, value: string)
    requires value != ""
    ensures Middleware(request, cookies[GuardCookie := value]) == Next
  {
  }

  /** The redirect's query cannot be split by the path: after the prefix it has no `&`, `=` or
      `#`. */
  lemma RedirectKeepsOneParameter(request: Url, cookies: map<string, string>)
    requires Middleware(request, cookies).Redirect?
    ensures var q := FormEncode(request.pathname);
            Middleware(request, cookies).location.search == RedirectPrefix + q
            && '&' !in q && '=' !in q && '#' !in q
  {
    FormEncodeAlphabet(request.pathname);
  }

  /** Nothing but the guard cookie matters; in particular the session cookie the login sets does
      not. */
  lemma OtherCookiesIgnored(request: Url, cookies: map<string, string>, name: string, value: string)
    requires name != GuardCookie
    ensures Middleware(request, cookies[name := value]) == Middleware(request, cookies)
  {
  }
}
