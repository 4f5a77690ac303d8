/**
 * The Header component's behaviour: which top-level link a pathname makes
 * active, the mobile button's label, and the two effects that drive the
 * store (a route change, a key press).
 */
module Header {
  import opened HeaderStore

  const HomeHref: string := "/"
  const AboutHref: string := "/about"
  const BlogHref: string := "/blog"

  /** HeaderMenuItem: the text shown and the link target. */
  datatype MenuItem = MenuItem(name: string, href: string)

  const MenuItems: seq<MenuItem> := [
    MenuItem("Home", HomeHref),
    MenuItem("About", AboutHref),
    MenuItem("Blog", BlogHref),
    MenuItem("Portfolio", "/#portfolio"),
    MenuItem("Contact", "/#contact")
  ]

  /**
   * getActiveFromPath: a raw prefix test, "/about" first, then "/blog",
   * home otherwise.
   */
  function GetActiveFromPath(pathname: string): (r: string)
    ensures r == AboutHref || r == BlogHref || r == HomeHref
    ensures r == AboutHref <==> AboutHref <= pathname
    ensures r == BlogHref <==> !(AboutHref <= pathname) && BlogHref <= pathname
    ensures r == HomeHref <==> !(AboutHref <= pathname) && !(BlogHref <= pathname)
  {
    if AboutHref <= pathname then AboutHref
    else if BlogHref <= pathname then BlogHref
    else HomeHref
  }

  /** Classifying a classified path changes nothing. */
  lemma GetActiveFromPathIdempotent(pathname: string)
    ensures GetActiveFromPath(GetActiveFromPath(pathname)) == GetActiveFromPath(pathname)
  {
    assert !(AboutHref <= BlogHref) && !(AboutHref <= HomeHref) && !(BlogHref <= HomeHref);
  }

  /** Every pathname classifies as the href of Home, About or Blog, never as an in-page anchor. */
  lemma ActiveLinkIsMenuItem(pathname: string)
    ensures exists i :: 0 <= i < 3 && MenuItems[i].href == GetActiveFromPath(pathname)
    ensures GetActiveFromPath(pathname) != MenuItems[3].href && GetActiveFromPath(pathname) != MenuItems[4].href
  {
    var r := GetActiveFromPath(pathname);
    if r == AboutHref {
      assert MenuItems[1].href == r;
    } else if r == BlogHref {
      assert MenuItems[2].href == r;
    } else {
      assert MenuItems[0].href == r;
    }
  }

  /** The prefix test is not segment-aware: "/aboutus" and "/blogroll" select the About and Blog links. */
  lemma PrefixIsNotSegmentAware()
    ensures GetActiveFromPath("/aboutus") == AboutHref
    ensures GetActiveFromPath("/blogroll") == BlogHref
    ensures GetActiveFromPath("/blog/hello-world") == BlogHref
  {
    assert AboutHref <= "/aboutus";
    assert AboutHref[1] != "/blogroll"[1] && BlogHref <= "/blogroll";
    assert AboutHref[1] != "/blog/hello-world"[1] && BlogHref <= "/blog/hello-world";
  }

  /** mobileLabel */
  function MobileLabel(isMenuOpen: bool): (r: string)
    ensures r == "Close menu" <==> isMenuOpen
    ensures r == "Open menu" <==> !isMenuOpen
  {
    if isMenuOpen then "Close menu" else "Open menu"
  }

  /** The route-change effect on the store's value: setActiveLink, then closeMenu. */
  function Navigated(s: HeaderState, pathname: string): (r: HeaderState)
    ensures r.activeLink == GetActiveFromPath(pathname)
    ensures !r.isMenuOpen
    ensures r.isScrolled == s.isScrolled
  {
    s.SetActiveLink(GetActiveFromPath(pathname)).CloseMenu()
  }

  /** The keydown handler on the store's value: Escape closes the menu, other keys do nothing. */
  function KeyPressed(s: HeaderState, key: string): (r: HeaderState)
    ensures key == "Escape" ==> !r.isMenuOpen && r.isScrolled == s.isScrolled && r.activeLink == s.activeLink
    ensures key != "Escape" ==> r == s
  {
    if key == "Escape" then s.CloseMenu() else s
  }

  /** Re-running the route effect for the same pathname changes nothing more. */
  lemma NavigationIdempotent(s: HeaderState, pathname: string)
    ensures Navigated(Navigated(s, pathname), pathname) == Navigated(s, pathname)
  {
  }

  /** Navigation to a path that classifies the same way lands in the same state. */
  lemma NavigationDependsOnlyOnClass(s: HeaderState, p: string, q: string)
    requires GetActiveFromPath(p) == GetActiveFromPath(q)
    ensures Navigated(s, p) == Navigated(s, q)
  {
  }

  /** After a route change the menu is already closed, so Escape has nothing left to do. */
  lemma EscapeAfterNavigationIsNoOp(s: HeaderState, pathname: string, key: string)
    ensures KeyPressed(Navigated(s, pathname), key) == Navigated(s, pathname)
  {
  }

  /** The button label follows the store: after navigation or Escape it offers to open the menu. */
  lemma LabelAfterClosing(s: HeaderState, pathname: string)
    ensures MobileLabel(Navigated(s, pathname).isMenuOpen) == "Open menu"
    ensures MobileLabel(KeyPressed(s, "Escape").isMenuOpen) == "Open menu"
  {
  }

  /** A click on a desktop menu item (NavMenu's onItemClick): setActiveLink(item.href). */
  function NavItemClicked(s: HeaderState, href: string): (r: HeaderState)
    ensures r.activeLink == href
    ensures r.isMenuOpen == s.isMenuOpen && r.isScrolled == s.isScrolled
  {
    s.SetActiveLink(href)
  }

  /** A click on a mobile menu item: onItemClick(item.href), then onClose(). */
  function MobileItemClicked(s: HeaderState, href: string): (r: HeaderState)
    ensures r.activeLink == href && !r.isMenuOpen
    ensures r.isScrolled == s.isScrolled
  {
    s.SetActiveLink(href).CloseMenu()
  }

  /** A click on the logo: setActiveLink('/'). */
  function LogoClicked(s: HeaderState): (r: HeaderState)
    ensures r.activeLink == HomeHref
    ensures r.isMenuOpen == s.isMenuOpen && r.isScrolled == s.isScrolled
  {
    s.SetActiveLink(HomeHref)
  }

  /**
   * Clicking an in-page anchor stores the anchor's href, which no pathname
   * classifies as; on "/" the pathname does not change, so the route effect
   * does not overwrite it.
   */
  lemma AnchorClickLeavesUnclassifiedLink(s: HeaderState, pathname: string)
    ensures NavItemClicked(s, MenuItems[3].href).activeLink != GetActiveFromPath(pathname)
    ensures MobileItemClicked(s, MenuItems[4].href).activeLink != GetActiveFromPath(pathname)
  {
    ActiveLinkIsMenuItem(pathname);
  }

  /** The next route change restores the classified link, whatever was clicked before. */
  lemma NavigationOverridesClicks(s: HeaderState, href: string, pathname: string)
    ensures Navigated(NavItemClicked(s, href), pathname) == Navigated(s, pathname)
    ensures Navigated(MobileItemClicked(s, href), pathname) == Navigated(s, pathname)
    ensures Navigated(LogoClicked(s), pathname) == Navigated(s, pathname)
  {
  }

  method OnNavItemClick(store: HeaderStore, href: string)
    modifies store
    ensures store.State() == NavItemClicked(old(store.State()), href)
  {
    store.SetActiveLink(href);
  }

  method OnMobileItemClick(store: HeaderStore, href: string)
    modifies store
    ensures store.State() == MobileItemClicked(old(store.State()), href)
  {
    store.SetActiveLink(href);
    store.CloseMenu();
  }

  method OnLogoClick(store: HeaderStore)
    modifies store
    ensures store.State() == LogoClicked(old(store.State()))
  {
    store.SetActiveLink(HomeHref);
  }

  /** useEffect on pathname: setActiveLink(getActiveFromPath(pathname)); closeMenu(). */
  method OnPathnameChange(store: HeaderStore, pathname: string)
    modifies store
    ensures store.State() == Navigated(old(store.State()), pathname)
  {
    store.SetActiveLink(GetActiveFromPath(pathname));
    store.CloseMenu();
  }

  /** The window keydown listener. */
  method OnKeyDown(store: HeaderStore, key: string)
    modifies store
    ensures store.State() == KeyPressed(old(store.State()), key)
  {
    if key == "Escape" {
      store.CloseMenu();
    }
  }
}
