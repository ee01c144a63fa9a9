/** The header navigation: six items in a fixed order, the active-item test
    on the current path, and the mobile menu. */
module Header {
  import opened Text

  datatype NavItem = NavItem(name: string, href: string)

  const NavigationItems: seq<NavItem> := [
    NavItem("Dashboard", "/"),
    NavItem("Focus Mode", "/focus"),
    NavItem("Planner", "/planner"),
    NavItem("Analytics", "/analytics"),
    NavItem("Leaderboards", "/leaderboards"),
    NavItem("Settings", "/settings")
  ]

  /** `isActive(href)` on the path `pathname`. */
  predicate IsActive(pathname: string, href: string)
  {
    if href == "/" then pathname == "/" else StartsWith(pathname, href)
  }

  /** The dashboard is active only on "/" itself; any other item on every
      path that begins with its href, so "/focusing" lights up Focus Mode. */
  lemma ActiveRule(pathname: string, href: string)
    ensures IsActive(pathname, "/") <==> pathname == "/"
    ensures href != "/" ==> (IsActive(pathname, href) <==> |href| <= |pathname| && pathname[..|href|] == href)
    ensures IsActive("/focusing", "/focus") && IsActive("/focus/session", "/focus")
  {
    assert "/focusing"[..6] == "/focus";
    assert "/focus/session"[..6] == "/focus";
  }

  /** On the path of an item exactly that item is active. */
  lemma OneActiveOnItemPaths(k: nat, j: nat)
    requires k < |NavigationItems| && j < |NavigationItems|
    ensures IsActive(NavigationItems[k].href, NavigationItems[j].href) <==> k == j
  {
    var p := NavigationItems[k].href;
    var h := NavigationItems[j].href;
    if k != j && h != "/" && |h| <= |p| {
      assert p[1] != h[1] || p[2] != h[2];
      assert p[..|h|][1] == p[1] && p[..|h|][2] == p[2];
    }
  }

  class HeaderNav {
    var mobileMenuOpen: bool
    var pathname: string

    constructor(path: string)
      ensures !mobileMenuOpen && pathname == path
    {
      mobileMenuOpen := false;
      pathname := path;
    }

    /** The menu button. */
    method ToggleMenu()
      modifies this
      ensures mobileMenuOpen == !old(mobileMenuOpen) && pathname == old(pathname)
    {
      mobileMenuOpen := !mobileMenuOpen;
    }

    /** A desktop item: the path changes, the menu does not. */
    method NavigateDesktop(k: nat)
      requires k < |NavigationItems|
      modifies this
      ensures pathname == NavigationItems[k].href && mobileMenuOpen == old(mobileMenuOpen)
      ensures forall j :: 0 <= j < |NavigationItems| ==> (IsActive(pathname, NavigationItems[j].href) <==> j == k)
    {
      pathname := NavigationItems[k].href;
      forall j | 0 <= j < |NavigationItems| ensures IsActive(pathname, NavigationItems[j].href) <==> j == k {
        OneActiveOnItemPaths(k, j);
      }
    }

    /** An item of the mobile menu: the path changes and the menu closes. */
    method NavigateMobile(k: nat)
      requires k < |NavigationItems|
      modifies this
      ensures pathname == NavigationItems[k].href && !mobileMenuOpen
      ensures forall j :: 0 <= j < |NavigationItems| ==> (IsActive(pathname, NavigationItems[j].href) <==> j == k)
    {
      pathname := NavigationItems[k].href;
      mobileMenuOpen := false;
      forall j | 0 <= j < |NavigationItems| ensures IsActive(pathname, NavigationItems[j].href) <==> j == k {
        OneActiveOnItemPaths(k, j);
      }
    }
  }
}
