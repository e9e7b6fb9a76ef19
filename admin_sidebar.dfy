// The admin sidebar's highlighting rule and its close-on-click behaviour.
module AdminSidebar {
  import Text

  datatype NavItem = NavItem(name: string, path: string)

  const NavItems: seq<NavItem> := [
    NavItem("Dashboard", "/admin"),
    NavItem("Blogs", "/admin/blogs"),
    NavItem("Projects", "/admin/projects"),
    NavItem("Skills", "/admin/skills"),
    NavItem("Experience", "/admin/experience"),
    NavItem("Socials", "/admin/socials")
  ]

  /** The dashboard is active only on its own path; every other item is
      active on its path and everything under it. */
  function IsActive(pathname: string, path: string): (r: bool)
    ensures path == "/admin" ==> (r <==> pathname == "/admin")
    ensures path != "/admin" ==> (r <==> path <= pathname)
  {
    if path == "/admin" then pathname == path else path <= pathname
  }

  /** On the blog list, Blogs is highlighted and the dashboard is not. */
  lemma BlogsPageHighlight()
    ensures IsActive("/admin/blogs", NavItems[1].path)
    ensures !IsActive("/admin/blogs", NavItems[0].path)
    ensures !IsActive("/admin/blogs", NavItems[2].path)
  {
    assert "/admin/blogs" != "/admin";
    assert "/admin/projects"[7] != "/admin/blogs"[7];
  }

  /** A sub-page of an item (an editor under "/admin/blogs/…") keeps it active. */
  lemma SubPageActive(rest: string, k: nat)
    requires 1 <= k < |NavItems|
    ensures IsActive(NavItems[k].path + rest, NavItems[k].path)
  {
    assert NavItems[k].path != "/admin" by {
      assert |NavItems[k].path| > |"/admin"|;
    }
  }

  /** The sidebar's open flag, which its parent owns and closes through
      `onClose`. Below 1024 pixels the sidebar is an overlay. */
  class Sidebar {
    var isOpen: bool

    constructor (isOpen: bool)
      ensures this.isOpen == isOpen
    {
      this.isOpen := isOpen;
    }

    /** `onClose`, called by the overlay and by the close button. */
    method Close()
      modifies this
      ensures !isOpen
    {
      isOpen := false;
    }

    /** A link click closes the sidebar when the window is narrower than 1024
        pixels and leaves it as it is otherwise. */
    method HandleLinkClick(innerWidth: int)
      modifies this
      ensures isOpen == (old(isOpen) && innerWidth >= 1024)
    {
      if innerWidth < 1024 {
        Close();
      }
    }
  }

  /** An open sidebar stays open after a link click exactly on a wide window,
      and a closed one stays closed whatever the width. */
  method ClickFromState(open: bool, innerWidth: int) returns (after: bool)
    ensures after <==> open && innerWidth >= 1024
    ensures !open ==> !after
  {
    var sidebar := new Sidebar(open);
    sidebar.HandleLinkClick(innerWidth);
    after := sidebar.isOpen;
  }
}
