// The site's floating navigation: which page links are offered on each page,
// the icon shown for the current page, and the menu and loading flags that the
// link handler and route changes toggle.
module Navigation {
  import opened Wrappers
  import Seqs

  datatype Icon = HomeIcon | AboutIcon | DevelopmentIcon | DesignIcon | CVIcon

  datatype NavLink = NavLink(icon: Icon, path: string)

  const NavLinks: seq<NavLink> := [
    NavLink(HomeIcon, "/"),
    NavLink(AboutIcon, "/about"),
    NavLink(DevelopmentIcon, "/development"),
    NavLink(DesignIcon, "/wordpress"),
    NavLink(CVIcon, "/cv")
  ]

  /** The pages each page links to; any other route links nowhere. */
  function AllowedPaths(current: string): (r: seq<string>)
    ensures current !in r
    ensures current !in {"/", "/about", "/development", "/wordpress", "/cv"} ==> r == []
  {
    match current
    case "/" => ["/about", "/development", "/cv"]
    case "/about" => ["/", "/cv", "/development"]
    case "/development" => ["/", "/about", "/wordpress"]
    case "/wordpress" => ["/", "/about", "/development"]
    case "/cv" => ["/", "/about", "/development"]
    case _ => []
  }

  predicate Shown(current: string, link: NavLink)
  {
    link.path in AllowedPaths(current) && link.path != current
  }

  /** `filteredLinks` over a link table: the allowed links, in table order. */
  function Visible(links: seq<NavLink>, current: string): seq<NavLink>
  {
    if links == [] then []
    else (if Shown(current, links[0]) then [links[0]] else []) + Visible(links[1..], current)
  }

  /** Exactly the allowed links other than the current page are kept. */
  lemma {:induction false} VisibleExact(links: seq<NavLink>, current: string)
    ensures forall k :: 0 <= k < |Visible(links, current)| ==>
      Shown(current, Visible(links, current)[k]) && Visible(links, current)[k] in links
    ensures forall k :: 0 <= k < |links| && Shown(current, links[k]) ==> links[k] in Visible(links, current)
    decreases |links|
  {
    if links != [] {
      VisibleExact(links[1..], current);
      assert links == [links[0]] + links[1..];
    }
  }

  function FilteredLinks(current: string): seq<NavLink>
  {
    Visible(NavLinks, current)
  }

  /** The current page is never offered. */
  lemma CurrentNeverOffered(current: string, k: nat)
    requires k < |FilteredLinks(current)|
    ensures FilteredLinks(current)[k].path != current
  {
    VisibleExact(NavLinks, current);
  }

  /** An unknown route offers no links. */
  lemma UnknownRouteShowsNothing(current: string)
    requires current !in {"/", "/about", "/development", "/wordpress", "/cv"}
    ensures FilteredLinks(current) == []
  {
    NoneVisible(NavLinks, current);
  }

  lemma {:induction false} NoneVisible(links: seq<NavLink>, current: string)
    requires AllowedPaths(current) == []
    ensures Visible(links, current) == []
    decreases |links|
  {
    if links != [] {
      NoneVisible(links[1..], current);
    }
  }

  /** The home page offers about, development and CV, in that order. */
  lemma HomeLinks()
    ensures FilteredLinks("/") == [NavLinks[1], NavLinks[2], NavLinks[4]]
  {
    var l := NavLinks;
    assert AllowedPaths("/") == ["/about", "/development", "/cv"];
    assert l[4..][1..] == [] && l[3..][1..] == l[4..] && l[2..][1..] == l[3..] && l[1..][1..] == l[2..];
    assert Visible(l[4..], "/") == [l[4]];
    assert Visible(l[3..], "/") == [l[4]];
    assert Visible(l[2..], "/") == [l[2]] + [l[4]];
    assert Visible(l[1..], "/") == [l[1]] + [l[2], l[4]];
  }

  /** The icon of the current page, or the home icon off the table. */
  function ActiveIcon(current: string): (icon: Icon)
    ensures (forall k :: 0 <= k < |NavLinks| ==> NavLinks[k].path != current) ==> icon == HomeIcon
    ensures forall k :: 0 <= k < |NavLinks| && NavLinks[k].path == current ==> icon == NavLinks[k].icon
  {
    var found := Seqs.Find(NavLinks, (link: NavLink) => link.path == current);
    if found.Some? then found.value.icon else HomeIcon
  }

  class Menu {
    var showNav: bool
    var loading: bool
    var location: string

    constructor (location: string)
      ensures !showNav && !loading && this.location == location
    {
      showNav, loading, this.location := false, false, location;
    }

    /** The menu button. */
    method Toggle()
      modifies this
      ensures showNav == !old(showNav) && loading == old(loading) && location == old(location)
    {
      showNav := !showNav;
    }

    /** A link click: loading starts, the menu closes and the route is requested. */
    method HandleNavLink(url: string) returns (navigateTo: string)
      modifies this
      ensures loading && !showNav && navigateTo == url && location == old(location)
    {
      loading := true;
      showNav := false;
      return url;
    }

    /** The route changed: loading stops. */
    method LocationChanged(path: string)
      modifies this
      ensures location == path && !loading && showNav == old(showNav)
    {
      location := path;
      loading := false;
    }
  }
}
