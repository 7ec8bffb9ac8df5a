/**
 * The session gate run in front of the admin pages: a request is
 * redirected to the login page when its path is under the admin prefix and
 * it carries no session-token cookie; the token's value is never checked.
 */
module Middleware {
  import opened Common

  const AdminPrefix: string := "/admin"
  const LoginPath: string := "/login"
  const TokenCookie: string := "sb-access-token"

  /** A request's cookies, by name. */
  type CookieJar = map<string, string>

  datatype Decision = Redirect(location: string) | Next

  /** `request.cookies.get('sb-access-token')?.value`. */
  function TokenOf(cookies: CookieJar): (t: Option<string>)
    ensures t.Some? <==> TokenCookie in cookies
    ensures t.Some? ==> t.value == cookies[TokenCookie]
  {
    if TokenCookie in cookies then Some(cookies[TokenCookie]) else None
  }

  /** The `middleware` function itself: a plain string-prefix test, then cookie presence. */
  function Gate(pathname: string, cookies: CookieJar): (d: Decision)
    ensures d.Redirect? ==> d.location == LoginPath
    ensures d.Redirect? <==> AdminPrefix <= pathname && !Truthy(TokenOf(cookies))
  {
    if AdminPrefix <= pathname && !Truthy(TokenOf(cookies)) then Redirect(LoginPath) else Next
  }

  /** The registered matcher `/admin/:path*`: `/admin` itself and everything below `/admin/`. */
  predicate Matched(pathname: string): (m: bool)
    ensures m ==> AdminPrefix <= pathname
    ensures m && pathname != AdminPrefix ==> |pathname| > |AdminPrefix| && pathname[|AdminPrefix|] == '/'
  {
    pathname == AdminPrefix || AdminPrefix + "/" <= pathname
  }

  /** What a request meets: the gate runs only on matched paths. */
  function Handle(pathname: string, cookies: CookieJar): (d: Decision)
    ensures d.Redirect? <==> Matched(pathname) && !Truthy(TokenOf(cookies))
  {
    if Matched(pathname) then
      MatchedIsUnderPrefix(pathname);
      Gate(pathname, cookies)
    else Next
  }

  /** Paths outside the admin prefix always pass. */
  lemma OutsidePrefixPasses(pathname: string, cookies: CookieJar)
    requires !(AdminPrefix <= pathname)
    ensures Gate(pathname, cookies) == Next && Handle(pathname, cookies) == Next
  {
  }

  /** Under the prefix, a missing or empty token means a redirect to the login page. */
  lemma NoTokenRedirects(pathname: string, cookies: CookieJar)
    requires AdminPrefix <= pathname
    requires TokenCookie !in cookies || cookies[TokenCookie] == ""
    ensures Gate(pathname, cookies) == Redirect(LoginPath)
  {
  }

  /** Any two non-empty tokens get the same decision: the value is never inspected. */
  lemma TokenValueIgnored(pathname: string, c1: CookieJar, c2: CookieJar)
    requires TokenCookie in c1 && c1[TokenCookie] != ""
    requires TokenCookie in c2 && c2[TokenCookie] != ""
    ensures Gate(pathname, c1) == Gate(pathname, c2) == Next
  {
  }

  /** Every matched path is under the prefix the function tests, so the two agree there. */
  lemma MatchedIsUnderPrefix(pathname: string)
    requires Matched(pathname)
    ensures AdminPrefix <= pathname
  {
    if pathname != AdminPrefix {
      assert AdminPrefix <= AdminPrefix + "/";
    }
  }

  /**
   * `/administrator` is gated by the prefix test inside the function, but
   * the matcher never routes it there, so without a token it still passes.
   */
  lemma AdministratorPrefixOnly()
    ensures Gate("/administrator", map[]) == Redirect(LoginPath)
    ensures !Matched("/administrator")
    ensures Handle("/administrator", map[]) == Next
  {
    assert AdminPrefix + "/" == "/admin/";
    assert "/administrator"[6] == 'i' && (AdminPrefix + "/")[6] == '/';
  }

  /** `/admin` and every page below `/admin/` are matched, so a request without a token is sent to the login page. */
  lemma AdminPagesRedirect(rest: string, cookies: CookieJar)
    requires !Truthy(TokenOf(cookies))
    ensures Handle(AdminPrefix, cookies) == Redirect(LoginPath)
    ensures Handle(AdminPrefix + "/" + rest, cookies) == Redirect(LoginPath)
  {
    assert AdminPrefix + "/" <= AdminPrefix + "/" + rest;
  }
}
