/** The navigation sidebar: hidden on the login page, one entry per section
    marked active by path prefix, and the footer that depends on the session. */
module AppSidebar {
  import opened Common
  import Session
  import Middleware

  datatype Entry = Entry(href: string, title: string, active: bool)

  datatype Footer = Footer(showLogout: bool, userBlock: Option<(string, string)>)

  datatype View = View(entries: seq<Entry>, footer: Footer)

  /** The sections, in menu order. */
  const Routes: seq<string> := ["/dashboard", "/search", "/services", "/products", "/reports"]
  const Titles: seq<string> := ["Dashboard", "Araç Sorgula", "Servisler", "Ürünler", "Rapor"]

  /** `isActive(route)`: the current path starts with the route. */
  predicate IsActive(pathname: string, route: string)
  {
    StartsWith(pathname, route)
  }

  /** The sidebar for a path and a session; nothing on the login page. */
  function Render(pathname: string, ctx: Session.AuthContext): (v: Option<View>)
    ensures v.None? <==> pathname == Middleware.LoginPath
    ensures v.Some? ==> |v.value.entries| == |Routes|
    ensures v.Some? ==> forall i :: 0 <= i < |Routes| ==>
              v.value.entries[i] == Entry(Routes[i], Titles[i], IsActive(pathname, Routes[i]))
    ensures v.Some? ==> (v.value.footer.showLogout <==> ctx.isAuthenticated)
    ensures v.Some? ==> (v.value.footer.userBlock.Some? <==> ctx.isAuthenticated && ctx.user.Some?)
    ensures v.Some? && v.value.footer.userBlock.Some? ==>
              v.value.footer.userBlock.value == (ctx.user.value.name, ctx.user.value.email)
  {
    if pathname == Middleware.LoginPath then None
    else
      var entries := seq(|Routes|, i requires 0 <= i < |Routes| => Entry(Routes[i], Titles[i], IsActive(pathname, Routes[i])));
      var user := if ctx.isAuthenticated && ctx.user.Some? then Some((ctx.user.value.name, ctx.user.value.email)) else None;
      Some(View(entries, Footer(ctx.isAuthenticated, user)))
  }

  /** A section stays active on every page below it, and on any path that
      merely continues its text. */
  lemma ActiveBelowSection(route: string, rest: string)
    ensures IsActive(route + rest, route)
  {
    assert (route + rest)[..|route|] == route;
  }

  /** Two routes active on the same path are prefixes of one another. */
  lemma ActiveRoutesNest(pathname: string, a: string, b: string)
    requires IsActive(pathname, a) && IsActive(pathname, b) && |a| <= |b|
    ensures StartsWith(b, a)
  {
    assert b[..|a|] == pathname[..|b|][..|a|];
  }

  /** No section's route is a prefix of another's, so at most one entry is
      active on any path. */
  lemma AtMostOneActive(pathname: string, i: int, j: int)
    requires 0 <= i < |Routes| && 0 <= j < |Routes| && i != j
    ensures !(IsActive(pathname, Routes[i]) && IsActive(pathname, Routes[j]))
  {
    var k := if Routes[i][1] != Routes[j][1] then 1 else 3;
    assert Routes[i][k] != Routes[j][k];
    if IsActive(pathname, Routes[i]) {
      assert pathname[..|Routes[i]|][k] == Routes[i][k];
    }
  }

  /** A stored-token reload with a failed profile has no user: the sidebar
      then shows neither the logout entry nor the user block. */
  lemma SignedOutFooter(pathname: string, ctx: Session.AuthContext)
    requires pathname != Middleware.LoginPath && ctx.user.None? && ctx.isAuthenticated == ctx.user.Some?
    ensures Render(pathname, ctx).value.footer == Footer(false, None)
  {
  }
}
