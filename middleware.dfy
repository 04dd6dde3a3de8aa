/** The edge middleware: lets framework and API paths through, sends signed-out
    visitors of protected pages to the login page, and sends signed-in
    visitors of the login and signup pages to the dashboard. */
module Middleware {
  import opened Wrappers
  import opened JsStrings

  const ProtectedPaths: seq<string> := ["/dashboard", "/profile", "/settings", "/onboarding"]

  const PublicPaths: seq<string> := ["/", "/login", "/signup", "/auth/callback"]

  const SkipMiddlewarePaths: seq<string> :=
    ["/_next", "/api", "/static", "/images", "/favicon.ico", "/manifest.json"]

  /** The two session cookies; `None` is a missing cookie. */
  datatype Cookies = Cookies(authToken: Option<string>, accessToken: Option<string>)

  /** `NextResponse.next()`, or a redirect to `location`, carrying the
      `redirect` search parameter when one is set. */
  datatype Decision = Next | Redirect(location: string, redirectParam: Option<string>)

  /** `paths.some(path => pathname.startsWith(path))`. */
  predicate StartsWithAny(pathname: string, paths: seq<string>)
  {
    exists i :: 0 <= i < |paths| && paths[i] <= pathname
  }

  /** A cookie counts when its value is truthy. */
  predicate Authenticated(c: Cookies)
  {
    Truthy(c.authToken) || Truthy(c.accessToken)
  }

  /** `isProtectedPath`: `pathname === path || pathname.startsWith(path)`,
      where the first test is subsumed by the second. */
  predicate IsProtectedPath(pathname: string)
  {
    StartsWithAny(pathname, ProtectedPaths)
  }

  /** `isPublicPath`, computed by the middleware and never used. */
  predicate IsPublicPath(pathname: string)
  {
    StartsWithAny(pathname, PublicPaths)
  }

  /** `middleware(request)` on the request's path and cookies. */
  function Middleware(pathname: string, c: Cookies): (d: Decision)
    ensures StartsWithAny(pathname, SkipMiddlewarePaths) ==> d == Next
    ensures d.Redirect? && d.location == "/login" ==> d.redirectParam == Some(pathname)
    ensures d.Redirect? ==> d.location in {"/login", "/dashboard"}
    ensures d.Redirect? <==>
      && !StartsWithAny(pathname, SkipMiddlewarePaths)
      && ((!Authenticated(c) && IsProtectedPath(pathname)) ||
          (Authenticated(c) && (pathname == "/login" || pathname == "/signup")))
  {
    if StartsWithAny(pathname, SkipMiddlewarePaths) then Next
    else if !Authenticated(c) && IsProtectedPath(pathname) then Redirect("/login", Some(pathname))
    else if Authenticated(c) && (pathname == "/login" || pathname == "/signup") then
      Redirect("/dashboard", None)
    else Next
  }

  /** A string whose character at `j` differs from the prefix's is not an
      extension of it. */
  lemma DiffersAt(prefix: string, s: string, j: nat)
    requires j < |prefix| && j < |s| && prefix[j] != s[j]
    ensures !(prefix <= s)
  {
  }

  /** None of the pages the model names is skipped. */
  lemma PagesNotSkipped(pathname: string)
    requires pathname in {"/login", "/signup", "/dashboard", "/admin"}
    ensures !StartsWithAny(pathname, SkipMiddlewarePaths)
  {
    forall i | 0 <= i < |SkipMiddlewarePaths| ensures !(SkipMiddlewarePaths[i] <= pathname) {
      var skip := SkipMiddlewarePaths[i];
      if skip == "/static" && pathname == "/signup" {
        DiffersAt(skip, pathname, 2);
      } else if skip == "/api" && pathname == "/admin" {
        DiffersAt(skip, pathname, 2);
      } else {
        DiffersAt(skip, pathname, 1);
      }
    }
  }

  /** A signed-out visitor of a protected page that is not skipped is sent to
      the login page, which is told where to send them back; a signed-in one
      is let through. */
  lemma ProtectedPageDecision(pathname: string, c: Cookies)
    requires IsProtectedPath(pathname) && !StartsWithAny(pathname, SkipMiddlewarePaths)
    ensures !Authenticated(c) <==> Middleware(pathname, c) == Redirect("/login", Some(pathname))
    ensures Authenticated(c) ==> Middleware(pathname, c) == Next
  {
    assert !IsProtectedPath("/login") && !IsProtectedPath("/signup");
  }

  /** Either cookie alone signs the visitor in: the decision depends on the
      cookies only through whether one of them is truthy. */
  lemma EitherCookieAuthenticates(pathname: string, c: Cookies, c': Cookies)
    requires Authenticated(c) == Authenticated(c')
    ensures Middleware(pathname, c) == Middleware(pathname, c')
  {
  }

  /** A signed-in visitor of exactly the login or signup page goes to the
      dashboard; a signed-out one is let through. */
  lemma AuthPagesDecision(pathname: string, c: Cookies)
    requires pathname == "/login" || pathname == "/signup"
    ensures Authenticated(c) ==> Middleware(pathname, c) == Redirect("/dashboard", None)
    ensures !Authenticated(c) ==> Middleware(pathname, c) == Next
  {
    PagesNotSkipped(pathname);
    assert !IsProtectedPath(pathname);
  }

  /** Protection is by prefix: every path that extends a protected path is
      protected, including `/onboarding/form` and `/dashboardx`. */
  lemma ProtectionByPrefix(i: nat, suffix: string)
    requires i < |ProtectedPaths|
    ensures IsProtectedPath(ProtectedPaths[i] + suffix)
  {
    assert ProtectedPaths[i] <= ProtectedPaths[i] + suffix;
  }

  /** Following a redirect never redirects again: the login page is open to
      signed-out visitors and the dashboard to signed-in ones. */
  lemma NoRedirectLoop(pathname: string, c: Cookies)
    requires Middleware(pathname, c).Redirect?
    ensures Middleware(Middleware(pathname, c).location, c) == Next
  {
    var target := Middleware(pathname, c).location;
    if target == "/login" {
      AuthPagesDecision("/login", c);
    } else {
      assert IsProtectedPath("/dashboard") by {
        ProtectionByPrefix(0, "");
        assert ProtectedPaths[0] + "" == "/dashboard";
      }
      PagesNotSkipped("/dashboard");
      ProtectedPageDecision("/dashboard", c);
    }
  }

  /** Every path starting with `/` counts as public, so the flag separates
      nothing, which is why it cannot matter that it is unused. */
  lemma EveryPathIsPublic(pathname: string)
    requires |pathname| >= 1 && pathname[0] == '/'
    ensures IsPublicPath(pathname)
  {
    assert PublicPaths[0] == "/" && PublicPaths[0] <= pathname;
  }

  /** The admin page is not in the protected list: the middleware lets a
      signed-out visitor through, and the page checks the session itself. */
  lemma AdminPageNotProtected(c: Cookies)
    ensures Middleware("/admin", c) == Next
  {
    PagesNotSkipped("/admin");
    assert !IsProtectedPath("/admin");
  }
}
