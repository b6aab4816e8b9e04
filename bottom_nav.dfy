/** The mobile bottom navigation (`BottomNavMobile`): which item is highlighted. */
module BottomNav {
  import opened Outcome
  import opened Text

  /** `isActive`: the path is the item's route or lies below it. */
  predicate IsActive(pathname: string, href: string) {
    pathname == href || StartsWith(pathname, href + "/")
  }

  /** `usePathname() || '/'`: a missing or empty path reads as the root. */
  function EffectivePath(pathname: Option<string>): (p: string)
    ensures p != []
    ensures pathname.None? || pathname.value == [] ==> p == "/"
    ensures pathname.Some? && pathname.value != [] ==> p == pathname.value
  {
    if pathname.None? || pathname.value == [] then "/" else pathname.value
  }

  lemma ActiveOnOwnRoute(href: string)
    ensures IsActive(href, href)
  {
  }

  /** Every route nested below an item keeps the item highlighted. */
  lemma NestedRouteActive(href: string, rest: string)
    ensures IsActive(href + "/" + rest, href)
  {
    assert (href + "/" + rest)[..|href + "/"|] == href + "/";
  }

  /** A path that merely shares a prefix with the route, without a `/` after
      it, does not highlight the item. */
  lemma NoFalsePrefixMatch(href: string, rest: string)
    requires rest != [] && rest[0] != '/'
    ensures !IsActive(href + rest, href)
  {
    var p := href + rest;
    assert p[|href|] == rest[0];
    assert (href + "/")[|href|] == '/';
  }

  lemma TodolistxNotActive()
    ensures !IsActive("/todolistx", "/todolist")
  {
    NoFalsePrefixMatch("/todolist", "x");
  }

  /** The root item is highlighted only on `/` itself (or a path starting `//`). */
  lemma RootItemActive(pathname: string)
    ensures IsActive(pathname, "/") <==> pathname == "/" || StartsWith(pathname, "//")
  {
  }

  /** With no path reported, the items highlighted are those whose route is
      `/` (or the empty route, since `'' + '/'` is a prefix of `/`). */
  lemma MissingPathHighlightsRoot(href: string)
    ensures IsActive(EffectivePath(None), href) <==> href == "/" || href == ""
  {
    if href == "" {
      assert StartsWith("/", href + "/");
    }
  }
}
