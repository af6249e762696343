/** The edge route guard: a decision over the pathname and the `auth_token`
    cookie, and the matcher that decides which paths it runs on. */
module Middleware {
  import opened Common
  import Api

  datatype Decision = RedirectTo(target: string) | Pass

  const LoginPath: string := "/login"
  const DashboardPath: string := "/dashboard"

  /** The value of the `auth_token` cookie the guard reads, if the cookie is set. */
  function CookieToken(c: Option<Api.Cookie>): (t: Option<string>)
    ensures t.Some? <==> c.Some?
    ensures c.Some? ==> t.value == c.value.value
  {
    match c
    case None => None
    case Some(k) => Some(k.value)
  }

  /** The guard: the login page with a truthy token goes to the dashboard, any
      other page without one goes to the login page, everything else passes. */
  function Decide(pathname: string, token: Option<string>): (d: Decision)
    ensures pathname == LoginPath && Truthy(token) ==> d == RedirectTo(DashboardPath)
    ensures pathname != LoginPath && !Truthy(token) ==> d == RedirectTo(LoginPath)
    ensures d == Pass <==> (pathname == LoginPath) != Truthy(token)
  {
    var isAuthPage := pathname == LoginPath;
    if isAuthPage && Truthy(token) then RedirectTo(DashboardPath)
    else if !isAuthPage && !Truthy(token) then RedirectTo(LoginPath)
    else Pass
  }

  /** Following a redirect with the same cookie never redirects again. */
  lemma NoRedirectLoop(pathname: string, token: Option<string>)
    requires Decide(pathname, token).RedirectTo?
    ensures Decide(Decide(pathname, token).target, token) == Pass
  {
  }

  /** Only the exact string `/login` is the auth page: a trailing slash or a
      longer name is a protected page, and an empty cookie is no cookie. */
  lemma OnlyExactLoginIsAuthPage()
    ensures Decide("/login/", None) == RedirectTo(LoginPath)
    ensures Decide("/loginx", Some("")) == RedirectTo(LoginPath)
    ensures Decide("/login/", Some("t")) == Pass
    ensures Decide(LoginPath, Some("")) == Pass
  {
  }

  /** The matcher `/((?!api|_next/static|_next/image|favicon.ico|.*\.svg).*)`:
      the text after the leading slash must not start with `api`,
      `_next/static`, `_next/image` or `favicon`, any character, `ico` (the dot
      is a regular-expression wildcard), and must not contain `.svg`. */
  predicate Matched(pathname: string)
  {
    |pathname| >= 1 && pathname[0] == '/' &&
    var rest := pathname[1..];
    !StartsWith(rest, "api") && !StartsWith(rest, "_next/static") &&
    !StartsWith(rest, "_next/image") && !FaviconLike(rest) && !Includes(rest, ".svg")
  }

  predicate FaviconLike(rest: string)
  {
    |rest| >= 11 && rest[..7] == "favicon" && rest[8..11] == "ico"
  }

  /** A request's fate at the edge: unmatched paths are never guarded. */
  function Guard(pathname: string, token: Option<string>): (d: Decision)
    ensures !Matched(pathname) ==> d == Pass
    ensures Matched(pathname) && pathname != LoginPath && !Truthy(token) ==> d == RedirectTo(LoginPath)
    ensures d.RedirectTo? ==> Matched(pathname)
  {
    if Matched(pathname) then Decide(pathname, token) else Pass
  }

  /** Paths whose text after the slash starts with an excluded prefix are
      served without consulting the cookie; `favicon-ico` is one of them. */
  lemma ExcludedPrefixesSkipped(pathname: string, token: Option<string>)
    requires |pathname| >= 1 && pathname[0] == '/'
    requires var rest := pathname[1..];
             StartsWith(rest, "api") || StartsWith(rest, "_next/static") ||
             StartsWith(rest, "_next/image") || FaviconLike(rest)
    ensures Guard(pathname, token) == Pass
    ensures FaviconLike("favicon.ico") && FaviconLike("favicon-ico")
  {
  }

  /** A page whose name starts with none of `a`, `_`, `f` and that holds no dot
      is guarded, e.g. `/dashboard` and `/login`. */
  lemma PlainPagesGuarded(pathname: string)
    requires |pathname| >= 2 && pathname[0] == '/' && pathname[1] != 'a' && pathname[1] != '_' && pathname[1] != 'f'
    requires forall i :: 0 <= i < |pathname| ==> pathname[i] != '.'
    ensures Matched(pathname)
  {
    var rest := pathname[1..];
    assert rest[0] == pathname[1];
    assert |rest| >= 3 ==> rest[..3][0] == rest[0];
    assert |rest| >= 11 ==> rest[..7][0] == rest[0];
    assert |rest| >= 12 ==> rest[..12][0] == rest[0];
    assert |rest| >= 11 ==> rest[..11][0] == rest[0];
    assert forall i :: 0 <= i < |rest| ==> rest[i] == pathname[i + 1];
    MissingCharNotIncluded(rest, ".svg", 0);
  }

  /** Any path ending in `.svg` is served without consulting the cookie. */
  lemma SvgNeverGuarded(pathname: string, token: Option<string>)
    requires |pathname| >= 5 && pathname[0] == '/' && pathname[|pathname| - 4..] == ".svg"
    ensures Guard(pathname, token) == Pass
  {
    var rest := pathname[1..];
    assert rest[|rest| - 4..|rest|] == ".svg";
    assert OccursAt(rest, ".svg", |rest| - 4);
    IncludesAt(rest, ".svg");
  }
}
