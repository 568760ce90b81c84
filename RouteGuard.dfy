/** The edge middleware that redirects page requests according to the `token` cookie,
    and the matcher that decides which paths it runs on. */
module RouteGuard {
  import opened Js

  datatype Decision = Redirect(target: string) | Next

  const AuthPrefix := "/auth"
  const LoginPage := "/auth/login"
  const DashboardPage := "/dashboard"

  /** The matcher's excluded alternatives, tried right after the leading `/`. */
  const Excluded: seq<string> := ["api", "_next/static", "_next/image", "favicon.ico", "auth/login", "auth/register"]

  /** `pat` matches a prefix of `s`, where `.` in `pat` matches any one character as in a regular expression. */
  predicate PatternPrefix(s: string, pat: string) {
    |pat| <= |s| && forall i :: 0 <= i < |pat| ==> pat[i] == '.' || s[i] == pat[i]
  }

  /** The middleware: no token outside `/auth` goes to the login page,
      a token inside `/auth` goes to the dashboard, and everything else passes. */
  function Middleware(cookie: Option<string>, pathname: string): (d: Decision)
    ensures d == Redirect(LoginPage) <==> !Present(cookie) && !StartsWith(pathname, AuthPrefix)
    ensures d == Redirect(DashboardPage) <==> Present(cookie) && StartsWith(pathname, AuthPrefix)
    ensures d == Next <==> (Present(cookie) <==> !StartsWith(pathname, AuthPrefix))
  {
    if !Present(cookie) && !StartsWith(pathname, AuthPrefix) then Redirect(LoginPage)
    else if Present(cookie) && StartsWith(pathname, AuthPrefix) then Redirect(DashboardPage)
    else Next
  }

  /** The matcher `/((?!api|_next/static|_next/image|favicon.ico|auth/login|auth/register).*)`
      as a prefix test: a path is guarded when it starts with `/` and what follows the `/`
      begins with none of the excluded alternatives. */
  predicate Matched(pathname: string) {
    |pathname| >= 1 && pathname[0] == '/' &&
    forall k :: 0 <= k < |Excluded| ==> !PatternPrefix(pathname[1..], Excluded[k])
  }

  /** What a page request meets: the middleware on guarded paths, nothing elsewhere. */
  function Guard(cookie: Option<string>, pathname: string): (d: Decision)
    ensures !Matched(pathname) ==> d == Next
    ensures d.Redirect? ==> d.target == LoginPage || d.target == DashboardPage
    ensures d == Redirect(LoginPage) <==> Matched(pathname) && !Present(cookie) && !StartsWith(pathname, AuthPrefix)
    ensures d == Redirect(DashboardPage) <==> Matched(pathname) && Present(cookie) && StartsWith(pathname, AuthPrefix)
  {
    if Matched(pathname) then Middleware(cookie, pathname) else Next
  }

  /** The login and registration pages, and everything below them, are never guarded. */
  lemma {:induction false} AuthPagesUnguarded(rest: string)
    ensures !Matched(LoginPage + rest)
    ensures !Matched("/auth/register" + rest)
  {
    var login := LoginPage + rest;
    assert login[1..] == "auth/login" + rest;
    assert Excluded[4] == "auth/login";
    assert PatternPrefix(login[1..], Excluded[4]);
    var register := "/auth/register" + rest;
    assert register[1..] == "auth/register" + rest;
    assert Excluded[5] == "auth/register";
    assert PatternPrefix(register[1..], Excluded[5]);
  }

  /** An excluded alternative `auth<tail>` without wildcards applies to `/auth<rest>` only when `rest`
      starts with `tail`. */
  lemma AuthAlternative(rest: string, tail: string)
    requires forall i :: 0 <= i < |tail| ==> tail[i] != '.'
    ensures PatternPrefix("auth" + rest, "auth" + tail) ==> StartsWith(rest, tail)
  {
    if PatternPrefix("auth" + rest, "auth" + tail) {
      forall i | 0 <= i < |tail| ensures rest[i] == tail[i] {
        assert ("auth" + rest)[4 + i] == rest[i];
        assert ("auth" + tail)[4 + i] == tail[i];
      }
      assert rest[..|tail|] == tail;
    }
  }

  /** What the matcher guards: the site root, every path under the dashboard, and every `/auth`
      path except those continuing with `/login` or `/register`. */
  lemma {:induction false} MatcherGuards(rest: string)
    ensures Matched("/") && Matched(DashboardPage + rest)
    ensures !StartsWith(rest, "/login") && !StartsWith(rest, "/register") ==> Matched(AuthPrefix + rest)
  {
    var dashboard := DashboardPage + rest;
    assert dashboard[1..][0] == 'd';
    forall k | 0 <= k < |Excluded|
      ensures !PatternPrefix(dashboard[1..], Excluded[k])
    {
      assert Excluded[k][0] != dashboard[1..][0];
    }
    if !StartsWith(rest, "/login") && !StartsWith(rest, "/register") {
      var auth := AuthPrefix + rest;
      assert auth[1..] == "auth" + rest;
      forall k | 0 <= k < |Excluded|
        ensures !PatternPrefix(auth[1..], Excluded[k])
      {
        if k == 0 {
          assert Excluded[k][1] != auth[1..][1];
        } else if k < 4 {
          assert Excluded[k][0] != auth[1..][0];
        } else if k == 4 {
          assert Excluded[k] == "auth" + "/login";
          AuthAlternative(rest, "/login");
        } else {
          assert Excluded[k] == "auth" + "/register";
          AuthAlternative(rest, "/register");
        }
      }
    }
  }

  /** What the matcher skips: everything starting with `/api`, `/_next/static`, `/_next/image`, or
      `/favicon` followed by any character and `ico`. The alternatives are prefixes, not path segments,
      so `/apiary` is skipped too, and the unescaped `.` skips `/faviconXico` as well. */
  lemma {:induction false} MatcherSkips(rest: string)
    ensures !Matched("/api" + rest) && !Matched("/apiary")
    ensures !Matched("/_next/static" + rest) && !Matched("/_next/image" + rest)
    ensures !Matched("/favicon.ico" + rest) && !Matched("/faviconXico")
  {
    var api := "/api" + rest;
    assert PatternPrefix(api[1..], Excluded[0]) by { assert api[1..][..3] == Excluded[0]; }
    assert PatternPrefix("/apiary"[1..], Excluded[0]) by { assert "/apiary"[1..][..3] == Excluded[0]; }
    var assets := "/_next/static" + rest;
    assert PatternPrefix(assets[1..], Excluded[1]) by { assert assets[1..][..12] == Excluded[1]; }
    var image := "/_next/image" + rest;
    assert PatternPrefix(image[1..], Excluded[2]) by { assert image[1..][..11] == Excluded[2]; }
    var favicon := "/favicon.ico" + rest;
    assert PatternPrefix(favicon[1..], Excluded[3]) by { assert favicon[1..][..11] == Excluded[3]; }
    assert PatternPrefix("/faviconXico"[1..], Excluded[3]);
  }

  /** A token holder who opens the login or the registration page is let through rather than sent to
      the dashboard, because the matcher keeps the middleware off those pages; every other `/auth`
      page sends them to the dashboard. */
  lemma SignedInVisitorReachesAuthPages(rest: string, token: string)
    requires token != ""
    ensures Middleware(Some(token), LoginPage + rest) == Redirect(DashboardPage)
    ensures Guard(Some(token), LoginPage + rest) == Next
    ensures Guard(Some(token), "/auth/register" + rest) == Next
    ensures !StartsWith(rest, "/login") && !StartsWith(rest, "/register") ==>
      Guard(Some(token), AuthPrefix + rest) == Redirect(DashboardPage)
  {
    AuthPagesUnguarded(rest);
    MatcherGuards(rest);
    assert (LoginPage + rest)[..|AuthPrefix|] == AuthPrefix;
    assert (AuthPrefix + rest)[..|AuthPrefix|] == AuthPrefix;
  }

  /** Following a redirect never leads to a second one: the login page is unguarded,
      and with a token the dashboard is let through. */
  lemma RedirectSettles(cookie: Option<string>, pathname: string)
    ensures Guard(cookie, pathname).Redirect? ==> Guard(cookie, Guard(cookie, pathname).target) == Next
  {
    AuthPagesUnguarded("");
    assert LoginPage + "" == LoginPage;
    assert !StartsWith(DashboardPage, AuthPrefix) by {
      assert DashboardPage[1] != AuthPrefix[1];
    }
  }

  /** A token holder on a path outside `/auth`, and a visitor without a token on a path
      inside `/auth`, are let through wherever the path is. */
  lemma NoRedirectWhereAllowed(cookie: Option<string>, pathname: string)
    ensures Present(cookie) && !StartsWith(pathname, AuthPrefix) ==> Guard(cookie, pathname) == Next
    ensures !Present(cookie) && StartsWith(pathname, AuthPrefix) ==> Guard(cookie, pathname) == Next
  {
  }
}
